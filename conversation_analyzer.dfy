/**
 * The conversation analyzer of
 * packages/acip-dialogue/src/validators/conversation-analyzer.ts: role
 * counts, pattern frequencies, a dependency-risk assessment, a scan for
 * sensitive data, ethical concerns and four quality ratios.
 *
 * Regular-expression tests are opaque predicates, fields of `AnalyzerRules`.
 * The global find-all loops of the sensitive-data scan are opaque span
 * finders, whose results are assumed nowhere: the lemmas that need them to be
 * well formed say so in their preconditions. Three tests are plain text
 * searches and are modelled concretely: the question mark, the emotional
 * word list and the structure test of the helpfulness estimate.
 */
module ConversationAnalyzer {
  import opened Types

  /** A match reported by `regex.exec`: `start` is `match.index`, `end` is
      `match.index + match[0].length`. */
  datatype Span = Span(start: nat, end: nat)

  /** The matches a global regular expression with no empty match reports on
      `s`: each non-empty and inside `s`, left to right, none overlapping. */
  predicate ValidSpans(s: string, spans: seq<Span>) {
    (forall k :: 0 <= k < |spans| ==> spans[k].start < spans[k].end <= |s|)
    && (forall k :: 0 < k < |spans| ==> spans[k - 1].end <= spans[k].start)
  }

  ghost predicate ValidFinder(find: string -> seq<Span>) {
    forall s :: ValidSpans(s, find(s))
  }

  /** One field per pattern (list) of conversation-analyzer.ts. */
  datatype AnalyzerRules = AnalyzerRules(
    code: string -> bool,                   // codePattern, line 68
    emotional: string -> bool,              // emotionalPattern, lines 82-83
    isolation: string -> bool,              // isolationPatterns, lines 146-152
    romantic: string -> bool,               // romanticPatterns, lines 156-164
    anxiety: string -> bool,                // anxietyPatterns, lines 168-175
    ssn: string -> seq<Span>,               // sensitive patterns, lines 219-225
    cardDigits: string -> seq<Span>,
    cardGroups: string -> seq<Span>,
    password: string -> seq<Span>,
    health: string -> seq<Span>,
    political: string -> seq<Span>,
    religious: string -> seq<Span>,
    harm: string -> bool,                   // harmPatterns, lines 263-268
    deception: string -> bool,              // deceptionPatterns, lines 279-284
    illegal: string -> bool,                // illegalPatterns, lines 295-300
    identity: string -> bool,               // identityPatterns, lines 329-332
    uncertainty: string -> bool,            // uncertaintyPatterns, lines 339-345
    boundaryNeeded: string -> bool,         // the romantic test of line 355
    boundary: string -> bool)               // boundaryPatterns, lines 358-363

  // ===========================================================================
  // Shared helpers: contents, matching, joining, counting
  // ===========================================================================

  function Contents(ms: Conversation): (r: seq<string>)
    ensures |r| == |ms|
    ensures forall k :: 0 <= k < |ms| ==> r[k] == ms[k].content
  {
    seq(|ms|, k requires 0 <= k < |ms| => ms[k].content)
  }

  /** `ms.filter((m) => test(m.content)).map((m) => m.content)` */
  function Matching(ms: Conversation, test: string -> bool): (r: seq<string>)
    ensures |r| <= |ms|
    ensures forall k :: 0 <= k < |r| ==> test(r[k])
    ensures forall m :: m in ms && test(m.content) ==> m.content in r
  {
    if ms == [] then []
    else
      var last := ms[|ms| - 1];
      assert ms == ms[..|ms| - 1] + [last];
      Matching(ms[..|ms| - 1], test) + (if test(last.content) then [last.content] else [])
  }

  /** The filter keeps exactly as many contents as the count of passing messages. */
  lemma {:induction false} MatchingCount(ms: Conversation, test: string -> bool)
    ensures |Matching(ms, test)| == CountWhere(ms, test)
  {
    if ms != [] {
      MatchingCount(ms[..|ms| - 1], test);
    }
  }

  /** Something matches exactly when some message passes the test. */
  lemma {:induction false} MatchingNonEmpty(ms: Conversation, test: string -> bool)
    ensures Matching(ms, test) != [] <==> exists k :: 0 <= k < |ms| && test(ms[k].content)
  {
    if ms != [] {
      var init := ms[..|ms| - 1];
      MatchingNonEmpty(init, test);
      if exists k :: 0 <= k < |init| && test(init[k].content) {
        var k :| 0 <= k < |init| && test(init[k].content);
        assert ms[k] == init[k];
      }
      if exists k :: 0 <= k < |ms| && test(ms[k].content) {
        var k :| 0 <= k < |ms| && test(ms[k].content);
        if k < |init| {
          assert init[k] == ms[k];
        }
      }
    }
  }

  /** `xs.join(' ')` */
  function Join(xs: seq<string>): (r: string)
    ensures |xs| == 0 ==> r == []
  {
    if |xs| == 0 then []
    else if |xs| == 1 then xs[0]
    else Join(xs[..|xs| - 1]) + " " + xs[|xs| - 1]
  }

  /** The joined text of the user messages, which several analyses search. */
  function UserContent(conv: Conversation): string {
    Join(Contents(WithRole(conv, User)))
  }

  /** `ms.filter((m) => test(m.content)).length` */
  function CountWhere(ms: Conversation, test: string -> bool): (r: nat)
    ensures r <= |ms|
  {
    if ms == [] then 0
    else CountWhere(ms[..|ms| - 1], test) + (if test(ms[|ms| - 1].content) then 1 else 0)
  }

  /** Every message passes exactly when the count is the length, none exactly when it is 0. */
  lemma {:induction false} CountWhereExtremes(ms: Conversation, test: string -> bool)
    ensures CountWhere(ms, test) == |ms| <==> forall k :: 0 <= k < |ms| ==> test(ms[k].content)
    ensures CountWhere(ms, test) == 0 <==> forall k :: 0 <= k < |ms| ==> !test(ms[k].content)
  {
    if ms != [] {
      var init := ms[..|ms| - 1];
      CountWhereExtremes(init, test);
      assert forall k :: 0 <= k < |init| ==> init[k] == ms[k];
    }
  }

  lemma {:induction false} AnyMatchIsPositiveCount(ms: Conversation, test: string -> bool)
    ensures AnyMatch(ms, test) <==> CountWhere(ms, test) > 0
  {
    if ms != [] {
      AnyMatchIsPositiveCount(ms[..|ms| - 1], test);
    }
  }

  // ===========================================================================
  // Patterns (conversation-analyzer.ts:50-97)
  // ===========================================================================

  const QuestionsType: string := "questions"
  const CodeType: string := "code-discussion"
  const EmotionalType: string := "emotional-expression"
  const ExampleLength: nat := 100

  /** `/\?/.test(s)` */
  predicate HasQuestionMark(s: string) {
    '?' in s
  }

  /** `s.slice(0, 100)` */
  function Truncate(s: string): (r: string)
    ensures |r| == (if |s| <= ExampleLength then |s| else ExampleLength) && r <= s
  {
    if |s| <= ExampleLength then s else s[..ExampleLength]
  }

  function Truncated(xs: seq<string>): (r: seq<string>)
    ensures |r| == |xs|
    ensures forall k :: 0 <= k < |xs| ==> r[k] == Truncate(xs[k])
  {
    seq(|xs|, k requires 0 <= k < |xs| => Truncate(xs[k]))
  }

  /** `xs.slice(0, n)` */
  function Take(xs: seq<string>, n: nat): (r: seq<string>)
    ensures |r| == (if |xs| <= n then |xs| else n) && r <= xs
  {
    if |xs| <= n then xs else xs[..n]
  }

  /** The contents of the user messages holding a question mark. */
  function Questions(conv: Conversation): seq<string> {
    Matching(WithRole(conv, User), HasQuestionMark)
  }

  /** The first 100 characters of every message that mentions code, of any role. */
  function CodeMessages(conv: Conversation, rules: AnalyzerRules): seq<string> {
    Truncated(Matching(conv, rules.code))
  }

  /** The first 100 characters of every user message that expresses an emotion. */
  function EmotionalMessages(conv: Conversation, rules: AnalyzerRules): seq<string> {
    Truncated(Matching(WithRole(conv, User), rules.emotional))
  }

  /** The entry of one pattern kind: present only when something matched,
      with the number of matches and the first `keep` of them. */
  function Entry(patternType: string, matches: seq<string>, keep: nat): (r: seq<ConversationPattern>)
    ensures |r| <= 1
    ensures |r| == 1 <==> |matches| > 0
    ensures |r| == 1 ==> r[0].patternType == patternType && r[0].frequency == |matches|
                         && r[0].examples == Take(matches, keep)
  {
    if |matches| > 0 then [ConversationPattern(patternType, |matches|, Take(matches, keep))] else []
  }

  /** The list of pattern entries: one per kind that occurs, in the order
      questions, code discussion, emotional expression. */
  function PatternsFor(conv: Conversation, rules: AnalyzerRules): (r: seq<ConversationPattern>)
    ensures |r| <= 3
  {
    Entry(QuestionsType, Questions(conv), 3)
    + Entry(CodeType, CodeMessages(conv, rules), 2)
    + Entry(EmotionalType, EmotionalMessages(conv, rules), 2)
  }

  /** An entry counts at least one message and keeps at most as many
      examples as it counts: 3 for questions, 2 for the other kinds, whose
      examples are at most 100 characters long. */
  predicate GoodEntry(p: ConversationPattern) {
    0 < p.frequency && |p.examples| <= p.frequency
    && |p.examples| <= (if p.patternType == QuestionsType then 3 else 2)
    && (p.patternType != QuestionsType ==> forall e :: e in p.examples ==> |e| <= ExampleLength)
  }

  lemma TruncatedExamplesShort(xs: seq<string>)
    ensures forall e :: e in Take(Truncated(xs), 2) ==> |e| <= ExampleLength
  {
    forall e | e in Take(Truncated(xs), 2)
      ensures |e| <= ExampleLength
    {
      var t :| 0 <= t < |Take(Truncated(xs), 2)| && Take(Truncated(xs), 2)[t] == e;
      assert e == Truncated(xs)[t];
    }
  }

  /** The position of a kind in the fixed order questions, code
      discussion, emotional expression. */
  function KindRank(patternType: string): nat {
    if patternType == QuestionsType then 0 else if patternType == CodeType then 1 else 2
  }

  /** Every entry is good. */
  lemma PatternEntriesGood(conv: Conversation, rules: AnalyzerRules)
    ensures var r := PatternsFor(conv, rules);
            forall k :: 0 <= k < |r| ==> GoodEntry(r[k])
  {
    var q := Entry(QuestionsType, Questions(conv), 3);
    var c := Entry(CodeType, CodeMessages(conv, rules), 2);
    var e := Entry(EmotionalType, EmotionalMessages(conv, rules), 2);
    assert |CodeType| != |QuestionsType| && |EmotionalType| != |QuestionsType|;
    TruncatedExamplesShort(Matching(conv, rules.code));
    TruncatedExamplesShort(Matching(WithRole(conv, User), rules.emotional));
    var r := q + c + e;
    forall k | 0 <= k < |r|
      ensures GoodEntry(r[k])
    {
      if k < |q| {
        assert r[k] == q[0];
      } else if k < |q| + |c| {
        assert r[k] == c[0];
      } else {
        assert r[k] == e[0];
      }
    }
  }

  /** The entries come in the fixed kind order, so no kind appears twice. */
  lemma PatternKindsOrdered(conv: Conversation, rules: AnalyzerRules)
    ensures var r := PatternsFor(conv, rules);
            forall k :: 0 < k < |r| ==> KindRank(r[k - 1].patternType) < KindRank(r[k].patternType)
  {
    var q := Entry(QuestionsType, Questions(conv), 3);
    var c := Entry(CodeType, CodeMessages(conv, rules), 2);
    var e := Entry(EmotionalType, EmotionalMessages(conv, rules), 2);
    assert |QuestionsType| == 9 && |CodeType| == 15 && |EmotionalType| == 20;
    assert KindRank(QuestionsType) == 0 && KindRank(CodeType) == 1 && KindRank(EmotionalType) == 2;
    var r := q + c + e;
    forall k | 0 < k < |r|
      ensures KindRank(r[k - 1].patternType) < KindRank(r[k].patternType)
    {
      if k < |q| + |c| {
        assert r[k - 1] == q[0] && r[k] == c[0];
      } else if k - 1 < |q| {
        assert r[k - 1] == q[0] && r[k] == e[0];
      } else {
        assert r[k - 1] == c[0] && r[k] == e[0];
      }
    }
  }

  /** The questions entry is the first entry, and it is there exactly when
      some user message holds a question mark. */
  lemma QuestionsReported(conv: Conversation, rules: AnalyzerRules)
    ensures var users := WithRole(conv, User);
            (|PatternsFor(conv, rules)| > 0 && PatternsFor(conv, rules)[0].patternType == QuestionsType)
            <==> exists k :: 0 <= k < |users| && HasQuestionMark(users[k].content)
  {
    var users := WithRole(conv, User);
    MatchingNonEmpty(users, HasQuestionMark);
    var r := PatternsFor(conv, rules);
    assert |QuestionsType| == 9 && |CodeType| == 15 && |EmotionalType| == 20;
    if |Questions(conv)| > 0 {
      assert r[0] == Entry(QuestionsType, Questions(conv), 3)[0];
    } else if |r| > 0 {
      assert r[0].patternType == CodeType || r[0].patternType == EmotionalType;
    }
  }

  /** Every example of the questions entry is a user message holding a
      question mark. */
  lemma QuestionExamplesAreQuestions(conv: Conversation, rules: AnalyzerRules)
    requires |PatternsFor(conv, rules)| > 0 && PatternsFor(conv, rules)[0].patternType == QuestionsType
    ensures forall e :: e in PatternsFor(conv, rules)[0].examples ==> HasQuestionMark(e)
  {
    var questions := Questions(conv);
    assert |QuestionsType| == 9 && |CodeType| == 15 && |EmotionalType| == 20;
    assert |questions| > 0;
    assert PatternsFor(conv, rules)[0].examples == Take(questions, 3);
    forall e | e in Take(questions, 3)
      ensures HasQuestionMark(e)
    {
      var k :| 0 <= k < |Take(questions, 3)| && Take(questions, 3)[k] == e;
      assert questions[k] == e;
    }
  }

  method DetectPatterns(conv: Conversation, rules: AnalyzerRules) returns (patterns: seq<ConversationPattern>)
    ensures patterns == PatternsFor(conv, rules)
  {
    patterns := [];
    var questions := Matching(WithRole(conv, User), HasQuestionMark);
    if |questions| > 0 {
      patterns := patterns + [ConversationPattern(QuestionsType, |questions|, Take(questions, 3))];
    }
    var codeMessages := Truncated(Matching(conv, rules.code));
    if |codeMessages| > 0 {
      patterns := patterns + [ConversationPattern(CodeType, |codeMessages|, Take(codeMessages, 2))];
    }
    var emotionalMessages := Truncated(Matching(WithRole(conv, User), rules.emotional));
    if |emotionalMessages| > 0 {
      patterns := patterns + [ConversationPattern(EmotionalType, |emotionalMessages|, Take(emotionalMessages, 2))];
    }
  }

  // ===========================================================================
  // Dependency risk (conversation-analyzer.ts:102-205)
  // ===========================================================================

  function FrequencyBand(userCount: nat): (f: FrequencyPattern)
    ensures f == FrequencyPattern.Concerning <==> userCount > 20
    ensures f == Normal <==> userCount <= 10
  {
    if userCount > 20 then FrequencyPattern.Concerning
    else if userCount > 10 then FrequencyPattern.Elevated
    else Normal
  }

  /** ASCII lower-casing of one character. */
  function LowerChar(c: char): char {
    if IsUpper(c) then (c as int + 32) as char else c
  }

  predicate IsUpper(c: char) {
    'A' <= c <= 'Z'
  }

  /** `s.toLowerCase()`, on ASCII letters only: no upper-case letter is
      left, each upper-case letter becomes its lower-case partner (same
      offset from 'a' as from 'A'), and every other character stays. */
  function LowerCase(s: string): (r: string)
    ensures |r| == |s|
    ensures forall k :: 0 <= k < |r| ==> !IsUpper(r[k])
    ensures forall k :: 0 <= k < |s| && IsUpper(s[k]) ==>
              'a' <= r[k] <= 'z' && r[k] as int - 'a' as int == s[k] as int - 'A' as int
    ensures forall k :: 0 <= k < |s| && !IsUpper(s[k]) ==> r[k] == s[k]
  {
    seq(|s|, k requires 0 <= k < |s| => LowerChar(s[k]))
  }

  /** Lower-casing twice is lower-casing once. */
  lemma LowerCaseIdempotent(s: string)
    ensures LowerCase(LowerCase(s)) == LowerCase(s)
  {
  }

  /** `s.includes(w)` */
  function Contains(s: string, w: string): bool
    decreases |s|
  {
    |w| <= |s| && (s[..|w|] == w || Contains(s[1..], w))
  }

  /** `w` occurs in `s` at position i. */
  predicate OccursAt(s: string, w: string, i: nat) {
    i + |w| <= |s| && s[i..i + |w|] == w
  }

  lemma OccursAtShift(s: string, w: string, i: nat)
    requires |s| > 0
    ensures OccursAt(s[1..], w, i) <==> OccursAt(s, w, i + 1)
  {
    if i + 1 + |w| <= |s| {
      assert s[1..][i..i + |w|] == s[i + 1..i + 1 + |w|];
    }
  }

  /** `Contains` is substring search. */
  lemma {:induction false} ContainsIff(s: string, w: string)
    ensures Contains(s, w) <==> exists i: nat :: OccursAt(s, w, i)
    decreases |s|
  {
    if |w| <= |s| && s[..|w|] == w {
      assert OccursAt(s, w, 0);
    } else if |w| <= |s| {
      ContainsIff(s[1..], w);
      if exists i: nat :: OccursAt(s, w, i) {
        var i: nat :| OccursAt(s, w, i);
        assert i > 0;
        OccursAtShift(s, w, i - 1);
      }
      if Contains(s[1..], w) {
        var i: nat :| OccursAt(s[1..], w, i);
        OccursAtShift(s, w, i);
      }
    }
  }

  const EmotionalWords: seq<string> :=
    ["love", "need", "always", "never", "only", "best", "everything", "nothing",
     "爱", "需要", "总是", "永远", "唯一"]

  /** How many of `words` occur in `text`. */
  function CountContained(words: seq<string>, text: string): (r: nat)
    ensures r <= |words|
  {
    if words == [] then 0
    else CountContained(words[..|words| - 1], text) + (if Contains(text, words[|words| - 1]) then 1 else 0)
  }

  /** The number of distinct emotional words in the lower-cased text. */
  function EmotionalCount(content: string): (r: nat)
    ensures r <= 13
  {
    CountContained(EmotionalWords, LowerCase(content))
  }

  function IntensityBand(count: nat): (e: EmotionalIntensity)
    ensures e == EmotionalIntensity.Concerning <==> count > 5
    ensures e == Appropriate <==> count <= 2
  {
    if count > 5 then EmotionalIntensity.Concerning
    else if count > 2 then EmotionalIntensity.Elevated
    else Appropriate
  }

  function FrequencyPoints(f: FrequencyPattern): nat {
    match f
    case Concerning => 2
    case Elevated => 1
    case Normal => 0
  }

  function IntensityPoints(e: EmotionalIntensity): nat {
    match e
    case Concerning => 2
    case Elevated => 1
    case Appropriate => 0
  }

  /** The integer risk score: 0 to 2 points each for frequency and intensity,
      3 for isolation, 3 for romance, 2 for anxiety about the AI. */
  function RiskScore(f: FrequencyPattern, e: EmotionalIntensity, isolation: bool, romantic: bool, anxiety: bool): (r: nat)
    ensures r <= 12
    ensures r <= 4 + (if isolation then 3 else 0) + (if romantic then 3 else 0) + (if anxiety then 2 else 0)
  {
    FrequencyPoints(f) + IntensityPoints(e)
    + (if isolation then 3 else 0) + (if romantic then 3 else 0) + (if anxiety then 2 else 0)
  }

  function RiskLevel(score: nat): DependencyRiskLevel {
    if score >= 8 then DependencyRiskLevel.Critical
    else if score >= 5 then DependencyRiskLevel.High
    else if score >= 2 then DependencyRiskLevel.Moderate
    else DependencyRiskLevel.Low
  }

  function LevelRank(level: DependencyRiskLevel): nat {
    match level
    case Low => 0
    case Moderate => 1
    case High => 2
    case Critical => 3
  }

  /** A higher score never gives a lower level. */
  lemma RiskLevelMonotone(s1: nat, s2: nat)
    requires s1 <= s2
    ensures LevelRank(RiskLevel(s1)) <= LevelRank(RiskLevel(s2))
  {
  }

  function DependencyFor(conv: Conversation, rules: AnalyzerRules): DependencyIndicators {
    var users := WithRole(conv, User);
    var content := UserContent(conv);
    var frequency := FrequencyBand(|users|);
    var intensity := IntensityBand(EmotionalCount(content));
    var isolation, romantic, anxiety := rules.isolation(content), rules.romantic(content), rules.anxiety(content);
    DependencyIndicators(frequency, intensity, isolation, romantic, anxiety,
                         RiskLevel(RiskScore(frequency, intensity, isolation, romantic, anxiety)))
  }

  /** Message volume and emotional words alone reach at most a moderate
      level; a high or critical level needs isolation, romantic or anxious
      language, and a critical one needs isolation or romance. */
  lemma HighRiskNeedsLanguage(conv: Conversation, rules: AnalyzerRules)
    ensures var d := DependencyFor(conv, rules);
            (LevelRank(d.riskLevel) >= 2 ==> d.isolationLanguage || d.romanticLanguage || d.anxietyAboutAI)
            && (d.riskLevel == DependencyRiskLevel.Critical ==> d.isolationLanguage || d.romanticLanguage)
  {
  }

  /** More than 20 user messages that are also romantic and isolated are critical. */
  lemma RomanticIsolatedHeavyUseIsCritical(conv: Conversation, rules: AnalyzerRules)
    requires |WithRole(conv, User)| > 20
    requires rules.romantic(UserContent(conv)) && rules.isolation(UserContent(conv))
    ensures DependencyFor(conv, rules).riskLevel == DependencyRiskLevel.Critical
  {
  }

  /** Lower-casing and substring search commute with concatenation the way
      the word count needs. */
  lemma LowerCaseAppend(a: string, b: string)
    ensures LowerCase(a + b) == LowerCase(a) + LowerCase(b)
  {
  }

  lemma ContainsInAppend(a: string, b: string, w: string)
    requires Contains(a, w) || Contains(b, w)
    ensures Contains(a + b, w)
  {
    ContainsIff(a, w);
    ContainsIff(b, w);
    ContainsIff(a + b, w);
    if Contains(a, w) {
      var i: nat :| OccursAt(a, w, i);
      assert (a + b)[i..i + |w|] == a[i..i + |w|];
      assert OccursAt(a + b, w, i);
    } else {
      var i: nat :| OccursAt(b, w, i);
      assert (a + b)[|a| + i..|a| + i + |w|] == b[i..i + |w|];
      assert OccursAt(a + b, w, |a| + i);
    }
  }

  /** A word in any one text is in the joined text. */
  lemma {:induction false} ContainsInJoin(xs: seq<string>, k: nat, w: string)
    requires k < |xs| && Contains(LowerCase(xs[k]), w)
    ensures Contains(LowerCase(Join(xs)), w)
  {
    if |xs| > 1 {
      var init := xs[..|xs| - 1];
      LowerCaseAppend(Join(init) + " ", xs[|xs| - 1]);
      LowerCaseAppend(Join(init), " ");
      if k < |init| {
        assert init[k] == xs[k];
        ContainsInJoin(init, k, w);
        ContainsInAppend(LowerCase(Join(init)), LowerCase(" "), w);
        ContainsInAppend(LowerCase(Join(init)) + LowerCase(" "), LowerCase(xs[|xs| - 1]), w);
      } else {
        ContainsInAppend(LowerCase(Join(init)) + LowerCase(" "), LowerCase(xs[|xs| - 1]), w);
      }
    }
  }

  /** An emotional word in any single user message counts towards the intensity. */
  lemma EmotionalWordIsCounted(conv: Conversation, k: nat, w: nat)
    requires k < |WithRole(conv, User)| && w < |EmotionalWords|
    requires Contains(LowerCase(WithRole(conv, User)[k].content), EmotionalWords[w])
    ensures EmotionalCount(UserContent(conv)) > 0
  {
    ContainsInJoin(Contents(WithRole(conv, User)), k, EmotionalWords[w]);
    CountContainedPositive(EmotionalWords, LowerCase(UserContent(conv)), w);
  }

  lemma {:induction false} CountContainedPositive(words: seq<string>, text: string, w: nat)
    requires w < |words| && Contains(text, words[w])
    ensures CountContained(words, text) > 0
  {
    if w < |words| - 1 {
      CountContainedPositive(words[..|words| - 1], text, w);
    }
  }

  method AssessDependencyRisk(conv: Conversation, rules: AnalyzerRules) returns (indicators: DependencyIndicators)
    ensures indicators == DependencyFor(conv, rules)
  {
    var userMessages := WithRole(conv, User);
    var content := Join(Contents(userMessages));
    var frequencyPattern :=
      if |userMessages| > 20 then FrequencyPattern.Concerning
      else if |userMessages| > 10 then FrequencyPattern.Elevated
      else Normal;
    var emotionalCount := CountContained(EmotionalWords, LowerCase(content));
    var emotionalIntensity :=
      if emotionalCount > 5 then EmotionalIntensity.Concerning
      else if emotionalCount > 2 then EmotionalIntensity.Elevated
      else Appropriate;
    var isolationLanguage := rules.isolation(content);
    var romanticLanguage := rules.romantic(content);
    var anxietyAboutAI := rules.anxiety(content);

    var riskScore := 0;
    if frequencyPattern == FrequencyPattern.Concerning {
      riskScore := riskScore + 2;
    } else if frequencyPattern == FrequencyPattern.Elevated {
      riskScore := riskScore + 1;
    }
    if emotionalIntensity == EmotionalIntensity.Concerning {
      riskScore := riskScore + 2;
    } else if emotionalIntensity == EmotionalIntensity.Elevated {
      riskScore := riskScore + 1;
    }
    if isolationLanguage {
      riskScore := riskScore + 3;
    }
    if romanticLanguage {
      riskScore := riskScore + 3;
    }
    if anxietyAboutAI {
      riskScore := riskScore + 2;
    }
    assert riskScore == RiskScore(frequencyPattern, emotionalIntensity, isolationLanguage, romanticLanguage, anxietyAboutAI);

    var riskLevel :=
      if riskScore >= 8 then DependencyRiskLevel.Critical
      else if riskScore >= 5 then DependencyRiskLevel.High
      else if riskScore >= 2 then DependencyRiskLevel.Moderate
      else DependencyRiskLevel.Low;
    indicators := DependencyIndicators(frequencyPattern, emotionalIntensity, isolationLanguage,
                                       romanticLanguage, anxietyAboutAI, riskLevel);
  }

  // ===========================================================================
  // Sensitive data (conversation-analyzer.ts:210-250)
  // ===========================================================================

  datatype SensitivePattern = SensitivePattern(find: string -> seq<Span>, category: SensitiveDataCategory)

  /** The seven patterns, in the order they are tried on each message. */
  function SensitivePatterns(rules: AnalyzerRules): (ps: seq<SensitivePattern>)
    ensures |ps| == 7
  {
    [SensitivePattern(rules.ssn, PersonalIdentity),
     SensitivePattern(rules.cardDigits, Financial),
     SensitivePattern(rules.cardGroups, Financial),
     SensitivePattern(rules.password, PersonalIdentity),
     SensitivePattern(rules.health, Health),
     SensitivePattern(rules.political, Political),
     SensitivePattern(rules.religious, Religious)]
  }

  function SpanLocation(span: Span, category: SensitiveDataCategory): SensitiveLocation {
    SensitiveLocation(span.start, span.end, category)
  }

  /** The locations for the first n matches of one pattern. */
  function SpanLocations(spans: seq<Span>, category: SensitiveDataCategory, n: nat): (r: seq<SensitiveLocation>)
    requires n <= |spans|
    ensures |r| == n
    ensures forall k :: 0 <= k < n ==> r[k] == SpanLocation(spans[k], category)
  {
    if n == 0 then [] else SpanLocations(spans, category, n - 1) + [SpanLocation(spans[n - 1], category)]
  }

  function PatternLocations(content: string, p: SensitivePattern): seq<SensitiveLocation> {
    SpanLocations(p.find(content), p.category, |p.find(content)|)
  }

  /** The locations the first j patterns find in one message, pattern by pattern. */
  function MessageLocations(content: string, ps: seq<SensitivePattern>, j: nat): seq<SensitiveLocation>
    requires j <= |ps|
  {
    if j == 0 then [] else MessageLocations(content, ps, j - 1) + PatternLocations(content, ps[j - 1])
  }

  /** The locations found in the first i messages, message by message. */
  function Locations(conv: Conversation, ps: seq<SensitivePattern>, i: nat): seq<SensitiveLocation>
    requires i <= |conv|
  {
    if i == 0 then [] else Locations(conv, ps, i - 1) + MessageLocations(conv[i - 1].content, ps, |ps|)
  }

  predicate NoDuplicates<T(==)>(xs: seq<T>) {
    forall k, k' :: 0 <= k < k' < |xs| ==> xs[k] != xs[k']
  }

  /** `[...new Set(xs)]`: each element once, at its first occurrence. */
  function Dedup(xs: seq<SensitiveDataCategory>): (r: seq<SensitiveDataCategory>)
    ensures forall x :: x in r <==> x in xs
    ensures NoDuplicates(r)
  {
    if xs == [] then []
    else
      var d := Dedup(xs[..|xs| - 1]);
      if xs[|xs| - 1] in d then d else d + [xs[|xs| - 1]]
  }

  /** `Dedup` keeps first-occurrence order: an element listed before another
      first occurs in the input before any occurrence of the other. */
  lemma {:induction false} DedupFirstOccurrence(xs: seq<SensitiveDataCategory>, k: nat, k': nat, t': nat)
    requires k < k' < |Dedup(xs)| && t' < |xs| && xs[t'] == Dedup(xs)[k']
    ensures Dedup(xs)[k] in xs[..t']
  {
    var n := |xs| - 1;
    var init, d := xs[..n], Dedup(xs[..n]);
    if xs[n] in d {
      if t' < n {
        assert init[t'] == xs[t'];
        DedupFirstOccurrence(init, k, k', t');
        assert init[..t'] == xs[..t'];
      } else {
        var t'' :| 0 <= t'' < n && init[t''] == d[k'];
        DedupFirstOccurrence(init, k, k', t'');
        assert init[..t''] <= xs[..t'];
      }
    } else if k' < |d| {
      assert t' < n;
      assert init[t'] == xs[t'];
      DedupFirstOccurrence(init, k, k', t');
      assert init[..t'] == xs[..t'];
    } else {
      assert xs[t'] !in init;
      assert t' == n;
      assert d[k] in init;
    }
  }

  function CategoriesOf(locations: seq<SensitiveLocation>): (r: seq<SensitiveDataCategory>)
    ensures |r| == |locations|
    ensures forall k :: 0 <= k < |locations| ==> r[k] == locations[k].category
  {
    seq(|locations|, k requires 0 <= k < |locations| => locations[k].category)
  }

  /** The detection report: every match of every pattern in every message,
      and the distinct categories found. */
  function SensitiveFor(conv: Conversation, rules: AnalyzerRules): (d: SensitiveDataDetection)
    ensures d.detected <==> d.categories != []
    ensures NoDuplicates(d.categories)
    ensures forall c :: c in d.categories <==> c in CategoriesOf(d.locations)
  {
    var locations := Locations(conv, SensitivePatterns(rules), |conv|);
    var categories := Dedup(CategoriesOf(locations));
    assert locations != [] ==> locations[0].category in categories;
    SensitiveDataDetection(|locations| > 0, categories, locations)
  }

  /** The reported categories come in order of first occurrence among the
      locations, as `[...new Set(...)]` keeps them: a category listed before
      another is found at an earlier location than every location of the other. */
  lemma SensitiveCategoriesInFirstOccurrenceOrder(conv: Conversation, rules: AnalyzerRules, k: nat, k': nat, t': nat)
    requires var d := SensitiveFor(conv, rules);
             k < k' < |d.categories| && t' < |d.locations| && d.locations[t'].category == d.categories[k']
    ensures var d := SensitiveFor(conv, rules);
            exists t :: 0 <= t < t' && d.locations[t].category == d.categories[k]
  {
    var d := SensitiveFor(conv, rules);
    var cs := CategoriesOf(d.locations);
    DedupFirstOccurrence(cs, k, k', t');
    var t :| 0 <= t < t' && cs[..t'][t] == d.categories[k];
    assert d.locations[t].category == d.categories[k];
  }

  /** A location's category is the category of one of the patterns. */
  lemma {:induction false} MessageLocationCategories(content: string, ps: seq<SensitivePattern>, j: nat, c: SensitiveDataCategory)
    requires j <= |ps|
    requires forall t :: 0 <= t < |ps| ==> ps[t].category != c
    ensures forall l :: l in MessageLocations(content, ps, j) ==> l.category != c
  {
    if j > 0 {
      MessageLocationCategories(content, ps, j - 1, c);
    }
  }

  lemma {:induction false} LocationCategories(conv: Conversation, ps: seq<SensitivePattern>, i: nat, c: SensitiveDataCategory)
    requires i <= |conv|
    requires forall t :: 0 <= t < |ps| ==> ps[t].category != c
    ensures forall l :: l in Locations(conv, ps, i) ==> l.category != c
  {
    if i > 0 {
      LocationCategories(conv, ps, i - 1, c);
      MessageLocationCategories(conv[i - 1].content, ps, |ps|, c);
      var previous, last := Locations(conv, ps, i - 1), MessageLocations(conv[i - 1].content, ps, |ps|);
      assert Locations(conv, ps, i) == previous + last;
      forall l: SensitiveLocation | l in previous + last
        ensures l.category != c
      {
        if l !in previous {
          assert l in last;
        }
      }
    }
  }

  /** No pattern reports biometric or sexual data. */
  lemma NeverBiometricOrSexual(conv: Conversation, rules: AnalyzerRules)
    ensures Biometric !in SensitiveFor(conv, rules).categories
    ensures Sexual !in SensitiveFor(conv, rules).categories
  {
    var ps := SensitivePatterns(rules);
    LocationCategories(conv, ps, |conv|, Biometric);
    LocationCategories(conv, ps, |conv|, Sexual);
  }

  /** The matches of one pattern lie inside the message, left to right. */
  lemma PatternLocationsOrdered(content: string, p: SensitivePattern)
    requires ValidFinder(p.find)
    ensures var r := PatternLocations(content, p);
            (forall k :: 0 <= k < |r| ==> r[k].start < r[k].end <= |content|)
            && (forall k :: 0 < k < |r| ==> r[k - 1].end <= r[k].start)
  {
    assert ValidSpans(content, p.find(content));
  }

  /** Offsets are local to their message: with well-formed finders, every
      location found in a message lies inside that message. */
  lemma {:induction false} MessageLocationsInBounds(content: string, ps: seq<SensitivePattern>, j: nat)
    requires j <= |ps|
    requires forall t :: 0 <= t < |ps| ==> ValidFinder(ps[t].find)
    ensures forall l :: l in MessageLocations(content, ps, j) ==> l.start < l.end <= |content|
  {
    if j > 0 {
      MessageLocationsInBounds(content, ps, j - 1);
      PatternLocationsOrdered(content, ps[j - 1]);
    }
  }

  method DetectSensitiveData(conv: Conversation, rules: AnalyzerRules) returns (detection: SensitiveDataDetection)
    ensures detection == SensitiveFor(conv, rules)
  {
    var detections: seq<SensitiveLocation> := [];
    var patterns := SensitivePatterns(rules);
    for i := 0 to |conv|
      invariant detections == Locations(conv, patterns, i)
    {
      var content := conv[i].content;
      for j := 0 to |patterns|
        invariant detections == Locations(conv, patterns, i) + MessageLocations(content, patterns, j)
      {
        var pattern := patterns[j];
        var spans := pattern.find(content);
        var k := 0;
        while k < |spans|
          invariant k <= |spans|
          invariant detections
                 == Locations(conv, patterns, i) + (MessageLocations(content, patterns, j)
                    + SpanLocations(spans, pattern.category, k))
        {
          detections := detections + [SensitiveLocation(spans[k].start, spans[k].end, pattern.category)];
          k := k + 1;
        }
      }
    }
    var categories := Dedup(CategoriesOf(detections));
    detection := SensitiveDataDetection(|detections| > 0, categories, detections);
  }

  // ===========================================================================
  // Ethical concerns (conversation-analyzer.ts:255-311)
  // ===========================================================================

  const HarmText: string := "Request for potentially harmful information detected"
  const HarmAdvice: string := "Decline firmly and do not provide information"
  const DeceptionText: string := "Request to create deceptive content detected"
  const DeceptionAdvice: string := "Decline and explain why disinformation is harmful"
  const IllegalText: string := "Request for potentially illegal activity detected"
  const IllegalAdvice: string := "Decline and suggest legitimate alternatives"

  const HarmConcern: EthicalConcern := EthicalConcern(Harm, ConcernSeverity.Critical, HarmText, HarmAdvice)
  const DeceptionConcern: EthicalConcern := EthicalConcern(Deception, ConcernSeverity.High, DeceptionText, DeceptionAdvice)
  const IllegalConcern: EthicalConcern := EthicalConcern(Illegal, ConcernSeverity.High, IllegalText, IllegalAdvice)

  function CategoryRank(c: EthicalCategory): nat {
    match c
    case Harm => 0
    case Deception => 1
    case Illegal => 2
    case Exploitation => 3
    case PrivacyViolation => 4
    case Manipulation => 5
  }

  /** At most one concern per category, harm before deception before illegal
      activity; harm is critical, the other two high. */
  function ConcernsFor(userContent: string, rules: AnalyzerRules): (r: seq<EthicalConcern>)
    ensures |r| <= 3
    ensures forall k, k' :: 0 <= k < k' < |r| ==> CategoryRank(r[k].category) < CategoryRank(r[k'].category)
    ensures forall k :: 0 <= k < |r| ==>
              r[k].severity == (if r[k].category == Harm then ConcernSeverity.Critical else ConcernSeverity.High)
  {
    (if rules.harm(userContent) then [HarmConcern] else [])
    + (if rules.deception(userContent) then [DeceptionConcern] else [])
    + (if rules.illegal(userContent) then [IllegalConcern] else [])
  }

  /** Each concern is raised exactly when its pattern list matches. */
  lemma ConcernIff(userContent: string, rules: AnalyzerRules)
    ensures HarmConcern in ConcernsFor(userContent, rules) <==> rules.harm(userContent)
    ensures DeceptionConcern in ConcernsFor(userContent, rules) <==> rules.deception(userContent)
    ensures IllegalConcern in ConcernsFor(userContent, rules) <==> rules.illegal(userContent)
  {
  }

  method DetectEthicalConcerns(conv: Conversation, rules: AnalyzerRules) returns (concerns: seq<EthicalConcern>)
    ensures concerns == ConcernsFor(UserContent(conv), rules)
  {
    concerns := [];
    var userContent := Join(Contents(WithRole(conv, User)));
    if rules.harm(userContent) {
      concerns := concerns + [EthicalConcern(Harm, ConcernSeverity.Critical, HarmText, HarmAdvice)];
    }
    if rules.deception(userContent) {
      concerns := concerns + [EthicalConcern(Deception, ConcernSeverity.High, DeceptionText, DeceptionAdvice)];
    }
    if rules.illegal(userContent) {
      concerns := concerns + [EthicalConcern(Illegal, ConcernSeverity.High, IllegalText, IllegalAdvice)];
    }
  }

  // ===========================================================================
  // Quality metrics (conversation-analyzer.ts:316-389)
  // ===========================================================================

  /** `/\n\n|\n-|\n\d\./.test(s)`: a blank line, a dash list item or a
      numbered list item. */
  predicate HasStructure(s: string)
    decreases |s|
  {
    (2 <= |s| && s[0] == '\n'
      && (s[1] == '\n' || s[1] == '-' || (3 <= |s| && '0' <= s[1] <= '9' && s[2] == '.')))
    || (1 <= |s| && HasStructure(s[1..]))
  }

  function Min(a: real, b: real): real {
    if a <= b then a else b
  }

  function TotalLength(ms: Conversation): nat {
    if ms == [] then 0 else TotalLength(ms[..|ms| - 1]) + |ms[|ms| - 1].content|
  }

  lemma RatioInUnitInterval(a: nat, b: nat)
    requires a <= b && 0 < b
    ensures 0.0 <= a as real / b as real <= 1.0
  {
    assert a as real / b as real <= b as real / b as real;
  }

  /** `boundaryNeeded > 0 ? Math.min(1, boundaryMaintained / boundaryNeeded) : 1` */
  function BoundaryRate(needed: nat, maintained: nat): (r: real)
    ensures 0.0 <= r <= 1.0
    ensures needed == 0 ==> r == 1.0
  {
    if needed > 0 then Min(1.0, maintained as real / needed as real) else 1.0
  }

  /** `Math.min(1, (avgResponseLength / 500) * 0.5 + (hasStructure ? 0.5 : 0.25))`:
      at least 0.25, and at least 0.5 once some answer is structured. */
  function Helpfulness(assistants: Conversation): (h: real)
    requires assistants != []
    ensures 0.25 <= h <= 1.0
    ensures AnyMatch(assistants, HasStructure) ==> h >= 0.5
  {
    var average := TotalLength(assistants) as real / |assistants| as real;
    Min(1.0, average / 500.0 * 0.5 + (if AnyMatch(assistants, HasStructure) then 0.5 else 0.25))
  }

  /** The four ratios: all 0 without assistant messages; otherwise an
      identity flag, two rates in [0, 1] and a helpfulness estimate in
      [0.25, 1]. */
  function QualityFor(conv: Conversation, rules: AnalyzerRules): (q: QualityMetrics)
    ensures WithRole(conv, Assistant) == [] ==> q == QualityMetrics(0.0, 0.0, 0.0, 0.0)
    ensures q.identityDisclosureRate == 0.0 || q.identityDisclosureRate == 1.0
    ensures q.identityDisclosureRate == 1.0 <==> CountWhere(WithRole(conv, Assistant), rules.identity) > 0
    ensures 0.0 <= q.uncertaintyExpressionRate <= 1.0
    ensures 0.0 <= q.boundaryMaintenanceRate <= 1.0
    ensures WithRole(conv, Assistant) != [] && CountWhere(WithRole(conv, User), rules.boundaryNeeded) == 0
            ==> q.boundaryMaintenanceRate == 1.0
    ensures WithRole(conv, Assistant) != [] ==> 0.25 <= q.helpfulnessEstimate <= 1.0
  {
    var assistants := WithRole(conv, Assistant);
    if |assistants| == 0 then QualityMetrics(0.0, 0.0, 0.0, 0.0)
    else
      var n := |assistants|;
      var identity := if CountWhere(assistants, rules.identity) > 0 then 1.0 else 0.0;
      var uncertainties := CountWhere(assistants, rules.uncertainty);
      RatioInUnitInterval(uncertainties, n);
      var needed := CountWhere(WithRole(conv, User), rules.boundaryNeeded);
      var maintained := CountWhere(assistants, rules.boundary);
      QualityMetrics(identity, uncertainties as real / n as real, BoundaryRate(needed, maintained), Helpfulness(assistants))
  }

  lemma RatioExtremes(c: nat, n: nat)
    requires c <= n && 0 < n
    ensures c as real / n as real == 1.0 <==> c == n
    ensures c as real / n as real == 0.0 <==> c == 0
  {
    if c as real / n as real == 1.0 {
      assert c as real == n as real;
    }
  }

  /** The uncertainty rate is 1 exactly when every assistant message
      expresses uncertainty and 0 exactly when none does. */
  lemma UncertaintyRateExtremes(conv: Conversation, rules: AnalyzerRules)
    requires WithRole(conv, Assistant) != []
    ensures var assistants := WithRole(conv, Assistant);
            ((QualityFor(conv, rules).uncertaintyExpressionRate == 1.0)
               <==> (forall k :: 0 <= k < |assistants| ==> rules.uncertainty(assistants[k].content)))
            && ((QualityFor(conv, rules).uncertaintyExpressionRate == 0.0)
               <==> (forall k :: 0 <= k < |assistants| ==> !rules.uncertainty(assistants[k].content)))
  {
    var assistants := WithRole(conv, Assistant);
    var c, n := CountWhere(assistants, rules.uncertainty), |assistants|;
    assert QualityFor(conv, rules).uncertaintyExpressionRate == c as real / n as real;
    CountWhereExtremes(assistants, rules.uncertainty);
    RatioExtremes(c, n);
  }

  /** A structured answer lifts the helpfulness estimate to at least 0.5. */
  lemma StructureLiftsHelpfulness(conv: Conversation, rules: AnalyzerRules)
    requires AnyMatch(WithRole(conv, Assistant), HasStructure)
    ensures QualityFor(conv, rules).helpfulnessEstimate >= 0.5
  {
    var assistants := WithRole(conv, Assistant);
    assert assistants != [];
    assert QualityFor(conv, rules).helpfulnessEstimate == Helpfulness(assistants);
  }

  /** A numbered list item counts as structure. */
  lemma NumberedListIsStructure()
    ensures HasStructure("Steps:\n1. Open the file")
  {
    var s := "Steps:\n1. Open the file";
    assert s[6..][0] == '\n' && s[6..][1] == '1' && s[6..][2] == '.';
    assert HasStructure(s[6..]);
    assert s[5..][1..] == s[6..];
    assert s[4..][1..] == s[5..];
    assert s[3..][1..] == s[4..];
    assert s[2..][1..] == s[3..];
    assert s[1..][1..] == s[2..];
  }

  // ===========================================================================
  // The whole analysis (conversation-analyzer.ts:20-45)
  // ===========================================================================

  function AnalysisFor(conv: Conversation, rules: AnalyzerRules): (a: ConversationAnalysis)
    ensures a.messageCount == |conv|
    ensures a.messagesByRole.user + a.messagesByRole.assistant + a.messagesByRole.system == a.messageCount
  {
    RoleCountsPartition(conv);
    ConversationAnalysis(
      |conv|,
      MessagesByRole(|WithRole(conv, User)|, |WithRole(conv, Assistant)|, |WithRole(conv, System)|),
      PatternsFor(conv, rules),
      DependencyFor(conv, rules),
      SensitiveFor(conv, rules),
      ConcernsFor(UserContent(conv), rules),
      QualityFor(conv, rules))
  }

  method AnalyzeConversation(conv: Conversation, rules: AnalyzerRules) returns (analysis: ConversationAnalysis)
    ensures analysis == AnalysisFor(conv, rules)
  {
    var messageCount := |conv|;
    var messagesByRole := MessagesByRole(|WithRole(conv, User)|, |WithRole(conv, Assistant)|, |WithRole(conv, System)|);
    var patterns := DetectPatterns(conv, rules);
    var dependencyRisk := AssessDependencyRisk(conv, rules);
    var sensitiveData := DetectSensitiveData(conv, rules);
    var ethicalConcerns := DetectEthicalConcerns(conv, rules);
    var quality := QualityFor(conv, rules);
    analysis := ConversationAnalysis(messageCount, messagesByRole, patterns, dependencyRisk,
                                     sensitiveData, ethicalConcerns, quality);
  }
}
