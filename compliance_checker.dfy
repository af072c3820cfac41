/**
 * The compliance checker of packages/acip-dialogue/src/validators/compliance-checker.ts:
 * five per-layer checkers, each starting from a score of 1 and subtracting a
 * fixed penalty per rule hit, and `CheckCompliance`, which runs the selected
 * ones, concatenates their issues in a fixed layer order, averages their
 * scores and applies a strictness-dependent threshold.
 *
 * Every regular-expression list of the source is an opaque predicate on the
 * message content, a field of `ComplianceRules`: `rules.boundary(s)` stands
 * for `boundaryPatterns.some((p) => p.test(s))`, and so on.
 */
module ComplianceChecker {
  import opened Types

  datatype Strictness = Strict | Moderate | Lenient

  /** `options.strictness` defaults to moderate, `options.layers` to all five layers. */
  datatype ComplianceCheckOptions = ComplianceCheckOptions(
    strictness: Option<Strictness>,
    layers: Option<seq<ProtocolLayer>>)

  /** One predicate per pattern list of compliance-checker.ts. */
  datatype ComplianceRules = ComplianceRules(
    identity: string -> bool,            // AI identity disclosure, lines 115-120
    uncertainty: string -> bool,         // uncertainty expressions, lines 139-148
    dependency: string -> bool,          // dependency language, lines 176-185
    romantic: string -> bool,            // romantic requests, lines 187-193
    boundary: string -> bool,            // boundary-affirming phrases, lines 195-203
    overconfident: string -> bool,       // directive language, lines 296-302
    reasoning: string -> bool,           // explanation of reasoning, lines 323-330
    refusal: string -> bool,             // refusals, lines 361-367
    refusalExplanation: string -> bool,  // explanation of a refusal, lines 370-376
    ssn: string -> bool,                 // the four privacy detectors, lines 421-429
    creditCard: string -> bool,
    idNumber: string -> bool,
    password: string -> bool)

  // ===========================================================================
  // Issue and suggestion texts, verbatim from compliance-checker.ts
  // ===========================================================================

  const IdentityMissingText: string := "No AI identity disclosure detected in first response"
  const IdentityHintText: string := "Include clear AI identification at the start of conversation"
  const IdentitySuggestionText: string := "Add AI identity disclosure to first response"
  const UncertaintySuggestionText: string := "Consider expressing uncertainty when appropriate"
  const RomanticUnaddressedText: string := "Romantic request not addressed with appropriate boundary"
  const DependencyUnaddressedText: string := "Dependency language not addressed with appropriate boundary"
  const BoundaryHintText: string := "Respond with gentle boundary reminder about AI nature"
  const OverconfidentText: string := "Potentially overconfident language detected"
  const OverconfidentHintText: string := "Consider framing as suggestions rather than directives"
  const ReasoningSuggestionText: string := "Consider explaining reasoning behind suggestions"
  const RefusalText: string := "Refusal without clear explanation"
  const RefusalHintText: string := "Consider explaining why the request was declined"
  const SensitiveDataText: string := "Potentially sensitive data detected: "
  const SensitiveDataHintText: string := "Consider warning user about sharing sensitive information"

  // ===========================================================================
  // Scores
  // ===========================================================================

  /** `Math.max(0, score)` */
  function MaxZero(score: real): (r: real)
    ensures r >= 0.0 && r >= score
    ensures r == score || r == 0.0
  {
    if score >= 0.0 then score else 0.0
  }

  /** The final score of a checker that starts at 1.0 and subtracts `penalty`
      once per issue: never above 1, never below 0, and 1 exactly when nothing
      was subtracted. */
  function PenalizedScore(penalty: real, count: nat): (r: real)
    requires penalty > 0.0
    ensures 0.0 <= r <= 1.0
    ensures r == 1.0 <==> count == 0
    ensures r == MaxZero(1.0 - penalty * count as real)
  {
    if count == 0 then 1.0
    else
      assert penalty * count as real >= penalty;
      MaxZero(1.0 - penalty * count as real)
  }

  // ===========================================================================
  // Trust & transparency (compliance-checker.ts:99-163)
  // ===========================================================================

  function TrustPenalty(strictness: Strictness): real {
    if strictness == Strict then 0.3 else 0.15
  }

  function TrustSeverity(strictness: Strictness): Severity {
    if strictness == Strict then Error else Warning
  }

  function IdentityIssue(strictness: Strictness): ComplianceIssue {
    ComplianceIssue(
      TrustTransparency, TrustSeverity(strictness),
      IdentityMissingText, Some(0),
      Some(IdentityHintText))
  }

  /** The first assistant message, when there is one, holds no identity
      disclosure and the strictness is not lenient. */
  predicate MissingIdentity(conv: Conversation, strictness: Strictness, rules: ComplianceRules) {
    var assistantMessages := WithRole(conv, Assistant);
    && strictness != Lenient
    && |assistantMessages| > 0
    && !rules.identity(assistantMessages[0].content)
  }

  /** The same test over raw positions lo .. hi-1 of a conversation. */
  predicate MatchIn(conv: Conversation, matches: string -> bool, lo: nat, hi: nat)
    requires lo <= hi <= |conv|
    decreases hi - lo
  {
    lo < hi && (MatchIn(conv, matches, lo, hi - 1) || matches(conv[hi - 1].content))
  }

  lemma {:induction false} AnyMatchSlice(conv: Conversation, matches: string -> bool, lo: nat, hi: nat)
    requires lo <= hi <= |conv|
    ensures AnyMatch(conv[lo..hi], matches) == MatchIn(conv, matches, lo, hi)
    decreases hi - lo
  {
    if lo < hi {
      assert conv[lo..hi][..hi - lo - 1] == conv[lo..hi - 1];
      AnyMatchSlice(conv, matches, lo, hi - 1);
    }
  }

  /** Only the first assistant message is tested for an identity disclosure;
      under lenient strictness nothing is reported; otherwise one issue at
      index 0 costs 0.3 (strict) or 0.15 (moderate). The uncertainty
      suggestion never affects the score. */
  function CheckTrustTransparency(conv: Conversation, strictness: Strictness, rules: ComplianceRules): (report: LayerReport)
    ensures WithRole(conv, Assistant) == [] ==> report == LayerReport(1.0, [], [])
    ensures strictness == Lenient ==> report.issues == [] && report.score == 1.0
    ensures |report.issues| <= 1
    ensures |report.issues| == 1 <==> MissingIdentity(conv, strictness, rules)
    ensures forall k :: 0 <= k < |report.issues| ==> report.issues[k] == IdentityIssue(strictness)
    ensures report.score == 1.0 - TrustPenalty(strictness) * |report.issues| as real
    ensures 0.0 <= report.score <= 1.0
  {
    var assistantMessages := WithRole(conv, Assistant);
    if |assistantMessages| == 0 then LayerReport(1.0, [], [])
    else
      var missing := MissingIdentity(conv, strictness, rules);
      var suggestions :=
        (if missing then [IdentitySuggestionText] else [])
        + (if !AnyMatch(assistantMessages, rules.uncertainty) && |conv| > 4
           then [UncertaintySuggestionText] else []);
      if missing then
        LayerReport(1.0 - TrustPenalty(strictness), [IdentityIssue(strictness)], suggestions)
      else
        LayerReport(1.0, [], suggestions)
  }

  /** Two conversations whose first assistant messages agree get the same
      trust issues and score, whatever else they contain. */
  lemma TrustDependsOnlyOnFirstAssistant(c1: Conversation, c2: Conversation, strictness: Strictness, rules: ComplianceRules)
    requires WithRole(c1, Assistant) != [] && WithRole(c2, Assistant) != []
    requires WithRole(c1, Assistant)[0].content == WithRole(c2, Assistant)[0].content
    ensures CheckTrustTransparency(c1, strictness, rules).issues == CheckTrustTransparency(c2, strictness, rules).issues
    ensures CheckTrustTransparency(c1, strictness, rules).score == CheckTrustTransparency(c2, strictness, rules).score
  {
  }

  /** A stricter setting never gives a higher trust score. */
  lemma TrustScoreMonotone(conv: Conversation, rules: ComplianceRules)
    ensures CheckTrustTransparency(conv, Strict, rules).score <= CheckTrustTransparency(conv, Strictness.Moderate, rules).score
    ensures CheckTrustTransparency(conv, Strictness.Moderate, rules).score <= CheckTrustTransparency(conv, Lenient, rules).score
  {
  }

  // ===========================================================================
  // Emotional boundary (compliance-checker.ts:168-280)
  //
  // A reference definition first: the user message at raw position q is
  // flagged when it holds dependency or romantic language and the first
  // maximal run of assistant messages after it holds no boundary phrase (or
  // there is no assistant message after it). The imperative scan with its
  // pending queue is then proved to emit exactly these warnings, in order.
  // ===========================================================================

  datatype PendingMessage = PendingMessage(userIndex: nat, hasDependency: bool, hasRomantic: bool)

  /** The role-filtered index of the message at raw position q: how many user
      messages precede it. */
  function UserIndexAt(conv: Conversation, q: nat): nat
    requires q <= |conv|
  {
    if q == 0 then 0 else UserIndexAt(conv, q - 1) + (if conv[q - 1].role == User then 1 else 0)
  }

  /** The count is the length of the user-only filter of the prefix, so the
      index points into `conversation.filter((m) => m.role === 'user')`. */
  lemma {:induction false} UserIndexIsFilteredLength(conv: Conversation, q: nat)
    requires q <= |conv|
    ensures UserIndexAt(conv, q) == |WithRole(conv[..q], User)|
    ensures q < |conv| && conv[q].role == User
            ==> UserIndexAt(conv, q) < |WithRole(conv, User)| && WithRole(conv, User)[UserIndexAt(conv, q)] == conv[q]
  {
    if q > 0 {
      UserIndexIsFilteredLength(conv, q - 1);
      WithRolePrefixStep(conv, q - 1, User);
    }
    if q < |conv| && conv[q].role == User {
      WithRolePrefixStep(conv, q, User);
      WithRolePrefixGrows(conv, q + 1, User);
    }
  }

  /** The queue entry a message contributes: one for a user message with
      dependency or romantic language, none otherwise. */
  function PendingAt(conv: Conversation, rules: ComplianceRules, q: nat): seq<PendingMessage>
    requires q < |conv|
  {
    var m := conv[q];
    var hasDependency := rules.dependency(m.content);
    var hasRomantic := rules.romantic(m.content);
    if m.role == User && (hasDependency || hasRomantic)
    then [PendingMessage(UserIndexAt(conv, q), hasDependency, hasRomantic)]
    else []
  }

  /** The entries contributed by raw positions lo .. hi-1, in order. */
  function PendingBetween(conv: Conversation, rules: ComplianceRules, lo: nat, hi: nat): seq<PendingMessage>
    requires lo <= hi <= |conv|
    decreases hi - lo
  {
    if hi == lo then [] else PendingBetween(conv, rules, lo, hi - 1) + PendingAt(conv, rules, hi - 1)
  }

  /** The first assistant message at or after `from` (|conv| when there is none). */
  function NextAssistant(conv: Conversation, from: nat): (a: nat)
    requires from <= |conv|
    ensures from <= a <= |conv|
    ensures a < |conv| ==> conv[a].role == Assistant
    decreases |conv| - from
  {
    if from == |conv| then |conv|
    else if conv[from].role == Assistant then from
    else NextAssistant(conv, from + 1)
  }

  /** The end of the maximal run of assistant messages starting at a. */
  function RunEnd(conv: Conversation, a: nat): (e: nat)
    requires a <= |conv|
    ensures a <= e <= |conv|
    decreases |conv| - a
  {
    if a == |conv| || conv[a].role != Assistant then a else RunEnd(conv, a + 1)
  }

  /** No boundary phrase answers a trigger that precedes position `from`: the
      first assistant run from there has none, or there is no assistant. */
  predicate Unanswered(conv: Conversation, rules: ComplianceRules, from: nat)
    requires from <= |conv|
  {
    var a := NextAssistant(conv, from);
    a == |conv| || !MatchIn(conv, rules.boundary, a, RunEnd(conv, a))
  }

  predicate Triggers(rules: ComplianceRules, m: ConversationMessage) {
    m.role == User && (rules.dependency(m.content) || rules.romantic(m.content))
  }

  /** The user message at raw position q is flagged by the checker. */
  predicate Flagged(conv: Conversation, rules: ComplianceRules, q: nat)
    requires q < |conv|
  {
    Triggers(rules, conv[q]) && Unanswered(conv, rules, q + 1)
  }

  function BoundaryWarning(p: PendingMessage): ComplianceIssue {
    ComplianceIssue(
      EmotionalBoundary, Warning,
      if p.hasRomantic then RomanticUnaddressedText
      else DependencyUnaddressedText,
      Some(p.userIndex),
      Some(BoundaryHintText))
  }

  function BoundaryWarnings(ps: seq<PendingMessage>): (r: seq<ComplianceIssue>)
    ensures |r| == |ps|
  {
    if ps == [] then [] else BoundaryWarnings(ps[..|ps| - 1]) + [BoundaryWarning(ps[|ps| - 1])]
  }

  /** The warnings for the flagged user messages among raw positions lo .. hi-1, in order. */
  function ExpectedWarnings(conv: Conversation, rules: ComplianceRules, lo: nat, hi: nat): seq<ComplianceIssue>
    requires lo <= hi <= |conv|
    decreases hi - lo
  {
    if hi == lo then []
    else
      ExpectedWarnings(conv, rules, lo, hi - 1)
      + (if Unanswered(conv, rules, hi) then BoundaryWarnings(PendingAt(conv, rules, hi - 1)) else [])
  }

  function EmotionalBoundaryWarnings(conv: Conversation, rules: ComplianceRules): seq<ComplianceIssue> {
    ExpectedWarnings(conv, rules, 0, |conv|)
  }

  /** The layer report: one warning per flagged user message, 0.2 each. */
  function EmotionalBoundaryReport(conv: Conversation, rules: ComplianceRules): (report: LayerReport)
    ensures 0.0 <= report.score <= 1.0
    ensures report.score == 1.0 <==> report.issues == []
  {
    var warnings := EmotionalBoundaryWarnings(conv, rules);
    LayerReport(PenalizedScore(0.2, |warnings|), warnings, [])
  }

  lemma {:induction false} BoundaryWarningsAppend(a: seq<PendingMessage>, b: seq<PendingMessage>)
    ensures BoundaryWarnings(a + b) == BoundaryWarnings(a) + BoundaryWarnings(b)
    decreases |b|
  {
    if b != [] {
      var n := |b| - 1;
      assert (a + b)[..|a + b| - 1] == a + b[..n];
      assert (a + b)[|a + b| - 1] == b[n];
      BoundaryWarningsAppend(a, b[..n]);
      calc {
        BoundaryWarnings(a + b);
        BoundaryWarnings(a + b[..n]) + [BoundaryWarning(b[n])];
        BoundaryWarnings(a) + BoundaryWarnings(b[..n]) + [BoundaryWarning(b[n])];
        BoundaryWarnings(a) + BoundaryWarnings(b);
      }
    } else {
      assert a + b == a;
    }
  }

  lemma {:induction false} ExpectedWarningsSplit(conv: Conversation, rules: ComplianceRules, lo: nat, mid: nat, hi: nat)
    requires lo <= mid <= hi <= |conv|
    ensures ExpectedWarnings(conv, rules, lo, hi)
         == ExpectedWarnings(conv, rules, lo, mid) + ExpectedWarnings(conv, rules, mid, hi)
    decreases hi - mid
  {
    if hi > mid {
      ExpectedWarningsSplit(conv, rules, lo, mid, hi - 1);
    }
  }

  /** No assistant message among raw positions lo .. hi-1. */
  predicate Quiet(conv: Conversation, lo: nat, hi: nat)
    requires lo <= hi <= |conv|
  {
    forall k :: lo <= k < hi ==> conv[k].role != Assistant
  }

  /** Over a stretch without assistant messages, every trigger shares one
      fate: all are warned about, or none is. */
  lemma {:induction false} QuietStretchWarnings(conv: Conversation, rules: ComplianceRules, lo: nat, hi: nat)
    requires lo <= hi <= |conv|
    requires Quiet(conv, lo, hi)
    ensures ExpectedWarnings(conv, rules, lo, hi)
         == if Unanswered(conv, rules, hi) then BoundaryWarnings(PendingBetween(conv, rules, lo, hi)) else []
    decreases hi - lo
  {
    if hi > lo {
      QuietStretchWarnings(conv, rules, lo, hi - 1);
      assert NextAssistant(conv, hi - 1) == NextAssistant(conv, hi);
      assert Unanswered(conv, rules, hi - 1) == Unanswered(conv, rules, hi);
      var previous, entry := PendingBetween(conv, rules, lo, hi - 1), PendingAt(conv, rules, hi - 1);
      assert PendingBetween(conv, rules, lo, hi) == previous + entry;
      BoundaryWarningsAppend(previous, entry);
      assert ExpectedWarnings(conv, rules, lo, hi)
          == ExpectedWarnings(conv, rules, lo, hi - 1)
             + (if Unanswered(conv, rules, hi) then BoundaryWarnings(entry) else []);
    }
  }

  /** A run of assistant messages contributes no warning of its own. */
  lemma {:induction false} AssistantRunWarnings(conv: Conversation, rules: ComplianceRules, lo: nat, hi: nat)
    requires lo <= hi <= |conv|
    requires forall k :: lo <= k < hi ==> conv[k].role == Assistant
    ensures ExpectedWarnings(conv, rules, lo, hi) == []
    decreases hi - lo
  {
    if hi > lo {
      AssistantRunWarnings(conv, rules, lo, hi - 1);
    }
  }

  lemma {:induction false} RunIsAssistant(conv: Conversation, a: nat)
    requires a <= |conv|
    ensures forall k :: a <= k < RunEnd(conv, a) ==> conv[k].role == Assistant
    decreases |conv| - a
  {
    if a < |conv| && conv[a].role == Assistant {
      RunIsAssistant(conv, a + 1);
    }
  }

  /** Flushing the entries queued since `settled` against the assistant run
      starting at i leaves exactly the reference warnings up to the run's end. */
  lemma RunFlushMatchesReference(conv: Conversation, rules: ComplianceRules, settled: nat, i: nat, j: nat)
    requires settled <= i < j <= |conv|
    requires Quiet(conv, settled, i)
    requires conv[i].role == Assistant && j == RunEnd(conv, i)
    ensures ExpectedWarnings(conv, rules, 0, j)
         == ExpectedWarnings(conv, rules, 0, settled)
            + (if AnyMatch(conv[i..j], rules.boundary) then [] else BoundaryWarnings(PendingBetween(conv, rules, settled, i)))
  {
    RunIsAssistant(conv, i);
    AnyMatchSlice(conv, rules.boundary, i, j);
    QuietStretchWarnings(conv, rules, settled, i);
    AssistantRunWarnings(conv, rules, i, j);
    ExpectedWarningsSplit(conv, rules, 0, settled, i);
    ExpectedWarningsSplit(conv, rules, 0, i, j);
  }

  /** The final flush with an empty batch warns about every entry still queued. */
  lemma FinalFlushMatchesReference(conv: Conversation, rules: ComplianceRules, settled: nat)
    requires settled <= |conv|
    requires Quiet(conv, settled, |conv|)
    ensures ExpectedWarnings(conv, rules, 0, |conv|)
         == ExpectedWarnings(conv, rules, 0, settled) + BoundaryWarnings(PendingBetween(conv, rules, settled, |conv|))
  {
    QuietStretchWarnings(conv, rules, settled, |conv|);
    ExpectedWarningsSplit(conv, rules, 0, settled, |conv|);
  }

  /** One flush of the pending queue against a batch of assistant responses
      (the `recordMissingBoundary` closure): when the queue is non-empty and
      no response holds a boundary phrase, one warning per entry is appended
      and 0.2 subtracted for each; the queue is emptied whatever the outcome. */
  method RecordMissingBoundary(
    rules: ComplianceRules, pendingMessages: seq<PendingMessage>, assistantResponses: Conversation,
    issues: seq<ComplianceIssue>, score: real)
    returns (issuesAfter: seq<ComplianceIssue>, scoreAfter: real, pendingAfter: seq<PendingMessage>)
    ensures pendingAfter == []
    ensures issuesAfter == issues + (if AnyMatch(assistantResponses, rules.boundary) then []
                                     else BoundaryWarnings(pendingMessages))
    ensures scoreAfter + 0.2 * |issuesAfter| as real == score + 0.2 * |issues| as real
  {
    issuesAfter, scoreAfter, pendingAfter := issues, score, pendingMessages;
    if |pendingMessages| == 0 {
      return;
    }
    var hasBoundaryResponse := AnyMatch(assistantResponses, rules.boundary);
    if !hasBoundaryResponse {
      for k := 0 to |pendingMessages|
        invariant issuesAfter == issues + BoundaryWarnings(pendingMessages[..k])
        invariant scoreAfter == score - 0.2 * k as real
      {
        assert pendingMessages[..k + 1][..k] == pendingMessages[..k];
        issuesAfter := issuesAfter + [BoundaryWarning(pendingMessages[k])];
        scoreAfter := scoreAfter - 0.2;
      }
      assert pendingMessages[..|pendingMessages|] == pendingMessages;
    }
    pendingAfter := [];
  }

  /** The inner loop of the scan (compliance-checker.ts:262-267): the maximal
      run of assistant messages starting at i, and the position after it. */
  method CollectAssistantRun(conv: Conversation, i: nat) returns (assistantResponses: Conversation, j: nat)
    requires i < |conv| && conv[i].role == Assistant
    ensures j == RunEnd(conv, i) && i < j
    ensures assistantResponses == conv[i..j]
  {
    assistantResponses := [conv[i]];
    j := i + 1;
    while j < |conv| && conv[j].role == Assistant
      invariant i < j <= |conv|
      invariant assistantResponses == conv[i..j]
      invariant RunEnd(conv, i) == RunEnd(conv, j)
    {
      assistantResponses := assistantResponses + [conv[j]];
      j := j + 1;
    }
  }

  /** A run of assistant messages does not move the user-only index. */
  lemma {:induction false} WithRoleUnchangedOverRun(conv: Conversation, i: nat, j: nat)
    requires i <= j <= |conv|
    requires j <= RunEnd(conv, i)
    ensures UserIndexAt(conv, j) == UserIndexAt(conv, i)
    decreases j - i
  {
    if j > i {
      RunIsAssistant(conv, i);
      WithRoleUnchangedOverRun(conv, i, j - 1);
    }
  }

  /** A non-assistant message extends the quiet stretch, advances the
      user-only index when it is a user message and queues an entry when it
      also holds trigger language. */
  lemma QuietStep(conv: Conversation, rules: ComplianceRules, settled: nat, i: nat)
    requires settled <= i < |conv| && Quiet(conv, settled, i) && conv[i].role != Assistant
    ensures Quiet(conv, settled, i + 1)
    ensures UserIndexAt(conv, i + 1) == UserIndexAt(conv, i) + (if conv[i].role == User then 1 else 0)
    ensures PendingBetween(conv, rules, settled, i + 1)
         == PendingBetween(conv, rules, settled, i)
            + (if Triggers(rules, conv[i])
               then [PendingMessage(UserIndexAt(conv, i), rules.dependency(conv[i].content), rules.romantic(conv[i].content))]
               else [])
  {
  }

  /** The assistant branch of the scan: collects the maximal run of
      assistant messages starting at i, flushes the queue against it, and
      reports where the scan resumes. */
  method HandleAssistantRun(conv: Conversation, rules: ComplianceRules, ghost settled: nat, i: nat,
                            pendingMessages: seq<PendingMessage>, issues: seq<ComplianceIssue>, score: real)
    returns (j: nat, issuesAfter: seq<ComplianceIssue>, scoreAfter: real, pendingAfter: seq<PendingMessage>)
    requires settled <= i < |conv| && conv[i].role == Assistant
    requires Quiet(conv, settled, i)
    requires pendingMessages == PendingBetween(conv, rules, settled, i)
    requires issues == ExpectedWarnings(conv, rules, 0, settled)
    ensures i < j <= |conv| && j == RunEnd(conv, i)
    ensures UserIndexAt(conv, j) == UserIndexAt(conv, i)
    ensures pendingAfter == []
    ensures issuesAfter == ExpectedWarnings(conv, rules, 0, j)
    ensures scoreAfter + 0.2 * |issuesAfter| as real == score + 0.2 * |issues| as real
  {
    var assistantResponses;
    assistantResponses, j := CollectAssistantRun(conv, i);
    WithRoleUnchangedOverRun(conv, i, j);
    issuesAfter, scoreAfter, pendingAfter := RecordMissingBoundary(rules, pendingMessages, assistantResponses, issues, score);
    RunFlushMatchesReference(conv, rules, settled, i, j);
  }

  /** The scan of compliance-checker.ts:205-279: user messages with trigger
      language are queued with their user-only index; each maximal run of
      assistant messages flushes the queue; a final flush with an empty batch
      flags whatever is left. */
  method CheckEmotionalBoundary(conv: Conversation, rules: ComplianceRules) returns (report: LayerReport)
    ensures report == EmotionalBoundaryReport(conv, rules)
  {
    var issues: seq<ComplianceIssue> := [];
    var suggestions: seq<string> := [];
    var score := 1.0;
    var pendingMessages: seq<PendingMessage> := [];
    var userIndex := 0;
    ghost var settled := 0;  // every trigger before `settled` has met its assistant run
    var i := 0;
    while i < |conv|
      invariant 0 <= settled <= i <= |conv|
      invariant Quiet(conv, settled, i)
      invariant userIndex == UserIndexAt(conv, i)
      invariant pendingMessages == PendingBetween(conv, rules, settled, i)
      invariant issues == ExpectedWarnings(conv, rules, 0, settled)
      invariant score == 1.0 - 0.2 * |issues| as real
    {
      var message := conv[i];
      if message.role != Assistant {
        QuietStep(conv, rules, settled, i);
        if message.role == User {
          var hasDependency := rules.dependency(message.content);
          var hasRomantic := rules.romantic(message.content);
          if hasDependency || hasRomantic {
            pendingMessages := pendingMessages + [PendingMessage(userIndex, hasDependency, hasRomantic)];
          }
          userIndex := userIndex + 1;
        }
        i := i + 1;
      } else {
        var j;
        j, issues, score, pendingMessages := HandleAssistantRun(conv, rules, settled, i, pendingMessages, issues, score);
        settled := j;
        i := j;  // the source's `i = j - 1` followed by the loop's `i++`
      }
    }

    report := FinishBoundaryScan(conv, rules, settled, pendingMessages, issues, score, suggestions);
  }

  /** The end of the scan: the final flush with an empty batch, then the
      report with the score clamped at 0. */
  method FinishBoundaryScan(conv: Conversation, rules: ComplianceRules, ghost settled: nat,
                            pendingMessages: seq<PendingMessage>, issues: seq<ComplianceIssue>, score: real,
                            suggestions: seq<string>)
    returns (report: LayerReport)
    requires settled <= |conv| && Quiet(conv, settled, |conv|)
    requires pendingMessages == PendingBetween(conv, rules, settled, |conv|)
    requires issues == ExpectedWarnings(conv, rules, 0, settled)
    requires score == 1.0 - 0.2 * |issues| as real
    requires suggestions == []  // this checker never suggests anything
    ensures report == EmotionalBoundaryReport(conv, rules)
  {
    var issuesAfter, scoreAfter, pendingAfter := RecordMissingBoundary(rules, pendingMessages, [], issues, score);
    FinalFlushMatchesReference(conv, rules, settled);
    assert issuesAfter == EmotionalBoundaryWarnings(conv, rules);
    assert MaxZero(scoreAfter) == PenalizedScore(0.2, |issuesAfter|);
    report := LayerReport(MaxZero(scoreAfter), issuesAfter, suggestions);
  }

  /** Every warning comes from a flagged user message, carries that message's
      user-only index, and has severity warning. */
  lemma {:induction false} WarningsComeFromFlagged(conv: Conversation, rules: ComplianceRules, hi: nat)
    requires hi <= |conv|
    ensures forall w :: w in ExpectedWarnings(conv, rules, 0, hi) ==>
              exists q :: 0 <= q < hi && Flagged(conv, rules, q)
                          && w == BoundaryWarning(PendingAt(conv, rules, q)[0])
                          && w.messageIndex == Some(UserIndexAt(conv, q))
                          && w.severity == Warning
    decreases hi
  {
    if hi > 0 {
      WarningsComeFromFlagged(conv, rules, hi - 1);
    }
  }

  /** Every flagged user message is warned about. */
  lemma {:induction false} FlaggedIsWarned(conv: Conversation, rules: ComplianceRules, q: nat, hi: nat)
    requires q < hi <= |conv|
    requires Flagged(conv, rules, q)
    ensures BoundaryWarning(PendingAt(conv, rules, q)[0]) in ExpectedWarnings(conv, rules, 0, hi)
    decreases hi
  {
    var w := BoundaryWarning(PendingAt(conv, rules, q)[0]);
    var previous := ExpectedWarnings(conv, rules, 0, hi - 1);
    var last := if Unanswered(conv, rules, hi) then BoundaryWarnings(PendingAt(conv, rules, hi - 1)) else [];
    assert ExpectedWarnings(conv, rules, 0, hi) == previous + last;
    if q < hi - 1 {
      FlaggedIsWarned(conv, rules, q, hi - 1);
    } else {
      assert last == [w] by {
        assert last == BoundaryWarnings(PendingAt(conv, rules, q));
        assert BoundaryWarnings(PendingAt(conv, rules, q)) == [w];
      }
    }
  }

  /** The final flush with an empty batch: a trigger with no assistant message
      after it is always warned about. */
  lemma TrailingTriggerIsWarned(conv: Conversation, rules: ComplianceRules, q: nat)
    requires q < |conv| && Triggers(rules, conv[q])
    requires forall k :: q < k < |conv| ==> conv[k].role != Assistant
    ensures BoundaryWarning(PendingAt(conv, rules, q)[0]) in EmotionalBoundaryReport(conv, rules).issues
  {
    NoAssistantAhead(conv, q + 1);
    FlaggedIsWarned(conv, rules, q, |conv|);
  }

  lemma {:induction false} NoAssistantAhead(conv: Conversation, from: nat)
    requires from <= |conv|
    requires forall k :: from <= k < |conv| ==> conv[k].role != Assistant
    ensures NextAssistant(conv, from) == |conv|
    decreases |conv| - from
  {
    if from < |conv| {
      NoAssistantAhead(conv, from + 1);
    }
  }

  /** Example: the reply "I'm an AI and I cannot form relationships." answers
      the earlier "I need you.", so the layer is clean. */
  lemma BoundaryAnsweredExample(rules: ComplianceRules)
    requires rules.boundary("I'm an AI and I cannot form relationships.")
    ensures EmotionalBoundaryReport(
              [ConversationMessage(User, "Hello."), ConversationMessage(User, "I need you."),
               ConversationMessage(Assistant, "I'm an AI and I cannot form relationships.")],
              rules) == LayerReport(1.0, [], [])
  {
    var conv := [ConversationMessage(User, "Hello."), ConversationMessage(User, "I need you."),
                 ConversationMessage(Assistant, "I'm an AI and I cannot form relationships.")];
    assert RunEnd(conv, 2) == 3;
    assert NextAssistant(conv, 1) == 2;
    assert conv[2..3] == [conv[2]];
    assert !Unanswered(conv, rules, 2);
    assert !Unanswered(conv, rules, 1);
    assert PendingAt(conv, rules, 2) == [];
    assert ExpectedWarnings(conv, rules, 0, 1) == [];
    assert ExpectedWarnings(conv, rules, 0, 2) == [];
  }

  /** Example: without a boundary phrase in the reply, "I need you." (user
      index 1) is warned about once and the score drops to 0.8. */
  lemma BoundaryMissedExample(rules: ComplianceRules, reply: string)
    requires !rules.dependency("Hello.") && !rules.romantic("Hello.")
    requires rules.dependency("I need you.") && !rules.romantic("I need you.")
    requires !rules.boundary(reply)
    ensures var report := EmotionalBoundaryReport(
              [ConversationMessage(User, "Hello."), ConversationMessage(User, "I need you."),
               ConversationMessage(Assistant, reply)], rules);
            && |report.issues| == 1
            && report.issues[0].messageIndex == Some(1)
            && report.issues[0].severity == Warning
            && report.score == 0.8
  {
    var conv := [ConversationMessage(User, "Hello."), ConversationMessage(User, "I need you."),
                 ConversationMessage(Assistant, reply)];
    assert RunEnd(conv, 2) == 3;
    assert NextAssistant(conv, 1) == 2;
    assert conv[2..3] == [conv[2]];
    assert Unanswered(conv, rules, 2);
    assert conv[..1] == [conv[0]];
    assert UserIndexAt(conv, 1) == 1;
    assert PendingAt(conv, rules, 0) == [];
    assert PendingAt(conv, rules, 1) == [PendingMessage(1, true, false)];
    assert PendingAt(conv, rules, 2) == [];
    assert ExpectedWarnings(conv, rules, 0, 1) == [];
    assert ExpectedWarnings(conv, rules, 0, 2) == [BoundaryWarning(PendingMessage(1, true, false))];
  }

  // ===========================================================================
  // Per-message rules over a role-filtered list (collaboration and ethics)
  // ===========================================================================

  /** The positions below n, in the filtered list, of the messages the rule hits. */
  function HitIndices(messages: Conversation, hit: string -> bool, n: nat): (r: seq<nat>)
    requires n <= |messages|
    ensures |r| <= n
    ensures forall t :: 0 <= t < |r| ==> r[t] < n && hit(messages[r[t]].content)
  {
    if n == 0 then []
    else HitIndices(messages, hit, n - 1) + (if hit(messages[n - 1].content) then [n - 1] else [])
  }

  predicate StrictlyIncreasing(s: seq<nat>) {
    forall t, u :: 0 <= t < u < |s| ==> s[t] < s[u]
  }

  /** The positions are reported in increasing order, each once. */
  lemma {:induction false} HitIndicesIncreasing(messages: Conversation, hit: string -> bool, n: nat)
    requires n <= |messages|
    ensures StrictlyIncreasing(HitIndices(messages, hit, n))
  {
    if n > 0 {
      HitIndicesIncreasing(messages, hit, n - 1);
      var r, previous := HitIndices(messages, hit, n), HitIndices(messages, hit, n - 1);
      forall t, u | 0 <= t < u < |r|
        ensures r[t] < r[u]
      {
        if u >= |previous| {
          assert r[t] == previous[t];
        }
      }
    }
  }

  /** Every message below n that the rule hits is reported. */
  lemma {:induction false} HitIndicesComplete(messages: Conversation, hit: string -> bool, n: nat, k: nat)
    requires k < n <= |messages| && hit(messages[k].content)
    ensures k in HitIndices(messages, hit, n)
  {
    if k < n - 1 {
      HitIndicesComplete(messages, hit, n - 1, k);
    }
  }

  /** The issue a per-message rule reports for message i of the filtered list. */
  function IssueAt(template: ComplianceIssue, i: nat): ComplianceIssue {
    template.(messageIndex := Some(i))
  }

  function IssuesAt(template: ComplianceIssue, indices: seq<nat>): (r: seq<ComplianceIssue>)
    ensures |r| == |indices|
    ensures forall t :: 0 <= t < |r| ==> r[t] == IssueAt(template, indices[t])
  {
    if indices == [] then []
    else IssuesAt(template, indices[..|indices| - 1]) + [IssueAt(template, indices[|indices| - 1])]
  }

  lemma IssuesAtPush(template: ComplianceIssue, indices: seq<nat>, i: nat)
    ensures IssuesAt(template, indices + [i]) == IssuesAt(template, indices) + [IssueAt(template, i)]
  {
    assert (indices + [i])[..|indices|] == indices;
  }

  /** A per-message rule reports message i exactly when it hits that message. */
  lemma IssueAtIff(messages: Conversation, hit: string -> bool, template: ComplianceIssue, i: nat)
    requires i < |messages|
    ensures IssueAt(template, i) in IssuesAt(template, HitIndices(messages, hit, |messages|))
            <==> hit(messages[i].content)
  {
    var indices := HitIndices(messages, hit, |messages|);
    var issues := IssuesAt(template, indices);
    if hit(messages[i].content) {
      HitIndicesComplete(messages, hit, |messages|, i);
      var t :| 0 <= t < |indices| && indices[t] == i;
      assert issues[t] == IssueAt(template, i);
    }
    if IssueAt(template, i) in issues {
      var t :| 0 <= t < |issues| && issues[t] == IssueAt(template, i);
      assert IssueAt(template, indices[t]).messageIndex == Some(i);
    }
  }

  // ===========================================================================
  // Collaboration (compliance-checker.ts:285-345)
  // ===========================================================================

  const OverconfidentTemplate: ComplianceIssue :=
    ComplianceIssue(Collaboration, Info, OverconfidentText, None, Some(OverconfidentHintText))

  /** One info issue per assistant message with directive language, indexed
      within the assistant-only list, 0.1 each; a reasoning suggestion when no
      assistant message explains itself in a conversation of more than four
      messages. */
  function CollaborationReport(conv: Conversation, rules: ComplianceRules): (report: LayerReport)
    ensures 0.0 <= report.score <= 1.0
    ensures report.score == 1.0 <==> report.issues == []
    ensures forall w :: w in report.issues ==> w.layer == Collaboration && w.severity == Info
  {
    var assistantMessages := WithRole(conv, Assistant);
    var issues := IssuesAt(OverconfidentTemplate, HitIndices(assistantMessages, rules.overconfident, |assistantMessages|));
    LayerReport(
      PenalizedScore(0.1, |issues|), issues,
      if !AnyMatch(assistantMessages, rules.reasoning) && |conv| > 4
      then [ReasoningSuggestionText] else [])
  }

  /** The issue for assistant message i is reported exactly when that message
      holds directive language. */
  lemma OverconfidentIssueIff(conv: Conversation, rules: ComplianceRules, i: nat)
    requires i < |WithRole(conv, Assistant)|
    ensures IssueAt(OverconfidentTemplate, i) in CollaborationReport(conv, rules).issues
            <==> rules.overconfident(WithRole(conv, Assistant)[i].content)
  {
    IssueAtIff(WithRole(conv, Assistant), rules.overconfident, OverconfidentTemplate, i);
  }

  method CheckCollaboration(conv: Conversation, rules: ComplianceRules) returns (report: LayerReport)
    ensures report == CollaborationReport(conv, rules)
  {
    var issues: seq<ComplianceIssue> := [];
    var suggestions: seq<string> := [];
    var score := 1.0;
    var assistantMessages := WithRole(conv, Assistant);
    for i := 0 to |assistantMessages|
      invariant issues == IssuesAt(OverconfidentTemplate, HitIndices(assistantMessages, rules.overconfident, i))
      invariant score == 1.0 - 0.1 * |issues| as real
    {
      var isOverconfident := rules.overconfident(assistantMessages[i].content);
      if isOverconfident {
        IssuesAtPush(OverconfidentTemplate, HitIndices(assistantMessages, rules.overconfident, i), i);
        issues := issues + [IssueAt(OverconfidentTemplate, i)];
        score := score - 0.1;
      }
    }
    assert MaxZero(score) == PenalizedScore(0.1, |issues|);
    var hasReasoning := AnyMatch(assistantMessages, rules.reasoning);
    if !hasReasoning && |conv| > 4 {
      suggestions := suggestions + [ReasoningSuggestionText];
    }
    report := LayerReport(MaxZero(score), issues, suggestions);
  }

  // ===========================================================================
  // Ethics (compliance-checker.ts:350-405)
  // ===========================================================================

  const RefusalTemplate: ComplianceIssue :=
    ComplianceIssue(Ethics, Info, RefusalText, None, Some(RefusalHintText))

  /** A refusal with no explanation of why. */
  function UnexplainedRefusal(rules: ComplianceRules): string -> bool {
    (s: string) => rules.refusal(s) && !rules.refusalExplanation(s)
  }

  /** One info issue per assistant message that refuses without explaining,
      indexed within the assistant-only list, 0.05 each; never a suggestion. */
  function EthicsReport(conv: Conversation, rules: ComplianceRules): (report: LayerReport)
    ensures 0.0 <= report.score <= 1.0
    ensures report.score == 1.0 <==> report.issues == []
    ensures report.suggestions == []
    ensures forall w :: w in report.issues ==> w.layer == Ethics && w.severity == Info
  {
    var assistantMessages := WithRole(conv, Assistant);
    var issues := IssuesAt(RefusalTemplate, HitIndices(assistantMessages, UnexplainedRefusal(rules), |assistantMessages|));
    LayerReport(PenalizedScore(0.05, |issues|), issues, [])
  }

  /** Assistant message i is reported exactly when it refuses and gives no
      explanation; an explained refusal or a message without refusal is not. */
  lemma RefusalIssueIff(conv: Conversation, rules: ComplianceRules, i: nat)
    requires i < |WithRole(conv, Assistant)|
    ensures IssueAt(RefusalTemplate, i) in EthicsReport(conv, rules).issues
            <==> rules.refusal(WithRole(conv, Assistant)[i].content)
                 && !rules.refusalExplanation(WithRole(conv, Assistant)[i].content)
  {
    IssueAtIff(WithRole(conv, Assistant), UnexplainedRefusal(rules), RefusalTemplate, i);
  }

  method CheckEthics(conv: Conversation, rules: ComplianceRules) returns (report: LayerReport)
    ensures report == EthicsReport(conv, rules)
  {
    var issues: seq<ComplianceIssue> := [];
    var suggestions: seq<string> := [];
    var score := 1.0;
    var assistantMessages := WithRole(conv, Assistant);
    for i := 0 to |assistantMessages|
      invariant issues == IssuesAt(RefusalTemplate, HitIndices(assistantMessages, UnexplainedRefusal(rules), i))
      invariant score == 1.0 - 0.05 * |issues| as real
    {
      var msg := assistantMessages[i];
      var hasRefusal := rules.refusal(msg.content);
      if hasRefusal {
        var hasExplanation := rules.refusalExplanation(msg.content);
        if !hasExplanation {
          IssuesAtPush(RefusalTemplate, HitIndices(assistantMessages, UnexplainedRefusal(rules), i), i);
          issues := issues + [IssueAt(RefusalTemplate, i)];
          score := score - 0.05;
        }
      }
    }
    assert MaxZero(score) == PenalizedScore(0.05, |issues|);
    report := LayerReport(MaxZero(score), issues, suggestions);
  }

  // ===========================================================================
  // Privacy (compliance-checker.ts:410-452)
  // ===========================================================================

  /** One entry of `sensitivePatterns`: its pattern and its `type` name. */
  datatype Detector = Detector(name: string, test: string -> bool)

  function PrivacyDetectors(rules: ComplianceRules): (ds: seq<Detector>)
    ensures |ds| == 4
  {
    [Detector("SSN", rules.ssn), Detector("Credit Card", rules.creditCard),
     Detector("ID Number", rules.idNumber), Detector("Password", rules.password)]
  }

  function PrivacyIssue(name: string, i: nat): ComplianceIssue {
    ComplianceIssue(Privacy, Warning, SensitiveDataText + name, Some(i), Some(SensitiveDataHintText))
  }

  /** The issues the first n detectors raise for one message, in detector order. */
  function DetectorIssues(detectors: seq<Detector>, content: string, i: nat, n: nat): (r: seq<ComplianceIssue>)
    requires n <= |detectors|
    ensures |r| <= n
    ensures forall t :: 0 <= t < |r| ==> r[t].messageIndex == Some(i)
    ensures forall t :: 0 <= t < |r| ==> r[t].layer == Privacy && r[t].severity == Warning
  {
    if n == 0 then []
    else
      DetectorIssues(detectors, content, i, n - 1)
      + (if detectors[n - 1].test(content) then [PrivacyIssue(detectors[n - 1].name, i)] else [])
  }

  /** The issues for the first n user messages: message by message, and
      detector by detector within a message. */
  function PrivacyIssues(userMessages: Conversation, detectors: seq<Detector>, n: nat): (r: seq<ComplianceIssue>)
    requires n <= |userMessages|
    ensures |r| <= n * |detectors|
    ensures forall t :: 0 <= t < |r| ==> r[t].messageIndex.Some? && r[t].messageIndex.value < n
    ensures forall t :: 0 <= t < |r| ==> r[t].layer == Privacy && r[t].severity == Warning
  {
    if n == 0 then []
    else
      var previous := PrivacyIssues(userMessages, detectors, n - 1);
      var last := DetectorIssues(detectors, userMessages[n - 1].content, n - 1, |detectors|);
      assert |previous + last| <= (n - 1) * |detectors| + |detectors|;
      previous + last
  }

  /** One warning per (user message, detector) hit, 0.1 each, never a suggestion. */
  function PrivacyReport(conv: Conversation, rules: ComplianceRules): (report: LayerReport)
    ensures 0.0 <= report.score <= 1.0
    ensures report.score == 1.0 <==> report.issues == []
    ensures report.suggestions == []
    ensures |report.issues| <= 4 * |WithRole(conv, User)|
    ensures forall w :: w in report.issues ==>
              w.layer == Privacy && w.severity == Warning
              && w.messageIndex.Some? && w.messageIndex.value < |WithRole(conv, User)|
  {
    var userMessages := WithRole(conv, User);
    var issues := PrivacyIssues(userMessages, PrivacyDetectors(rules), |userMessages|);
    LayerReport(PenalizedScore(0.1, |issues|), issues, [])
  }

  /** Within one message, the issue labelled by detector k is raised exactly
      when that detector fires, provided no other detector has the same name. */
  lemma {:induction false} DetectorIssueIff(detectors: seq<Detector>, content: string, i: nat, n: nat, k: nat)
    requires k < |detectors| && n <= |detectors|
    requires forall k' :: 0 <= k' < |detectors| && k' != k ==> detectors[k'].name != detectors[k].name
    ensures PrivacyIssue(detectors[k].name, i) in DetectorIssues(detectors, content, i, n)
            <==> k < n && detectors[k].test(content)
  {
    if n > 0 {
      DetectorIssueIff(detectors, content, i, n - 1, k);
      var d := detectors[n - 1];
      if n - 1 != k && d.test(content) {
        var m, m' := PrivacyIssue(d.name, i).message, PrivacyIssue(detectors[k].name, i).message;
        assert m[|SensitiveDataText|..] == d.name && m'[|SensitiveDataText|..] == detectors[k].name;
      }
    }
  }

  /** Issues of other messages never carry index i. */
  lemma {:induction false} PrivacyIssueIn(userMessages: Conversation, detectors: seq<Detector>, n: nat, i: nat, w: ComplianceIssue)
    requires i < n <= |userMessages| && w.messageIndex == Some(i)
    ensures w in PrivacyIssues(userMessages, detectors, n)
            <==> w in DetectorIssues(detectors, userMessages[i].content, i, |detectors|)
  {
    var last := DetectorIssues(detectors, userMessages[n - 1].content, n - 1, |detectors|);
    assert PrivacyIssues(userMessages, detectors, n) == PrivacyIssues(userMessages, detectors, n - 1) + last;
    if i < n - 1 {
      PrivacyIssueIn(userMessages, detectors, n - 1, i, w);
      assert w !in last;
    } else {
      assert w !in PrivacyIssues(userMessages, detectors, n - 1);
    }
  }

  /** The four category names are pairwise different. */
  lemma PrivacyNamesDiffer(rules: ComplianceRules, k: nat)
    requires k < 4
    ensures forall k' :: 0 <= k' < 4 && k' != k ==> PrivacyDetectors(rules)[k'].name != PrivacyDetectors(rules)[k].name
  {
    var ds := PrivacyDetectors(rules);
    assert |ds[0].name| == 3 && |ds[1].name| == 11 && |ds[2].name| == 9 && |ds[3].name| == 8;
  }

  /** User message i is reported under detector k's name exactly when that
      detector fires on it. */
  lemma PrivacyIssueIff(conv: Conversation, rules: ComplianceRules, i: nat, k: nat)
    requires i < |WithRole(conv, User)| && k < 4
    ensures PrivacyIssue(PrivacyDetectors(rules)[k].name, i) in PrivacyReport(conv, rules).issues
            <==> PrivacyDetectors(rules)[k].test(WithRole(conv, User)[i].content)
  {
    var userMessages, detectors := WithRole(conv, User), PrivacyDetectors(rules);
    PrivacyIssueIn(userMessages, detectors, |userMessages|, i, PrivacyIssue(detectors[k].name, i));
    PrivacyNamesDiffer(rules, k);
    DetectorIssueIff(detectors, userMessages[i].content, i, |detectors|, k);
  }

  method CheckPrivacy(conv: Conversation, rules: ComplianceRules) returns (report: LayerReport)
    ensures report == PrivacyReport(conv, rules)
  {
    var issues: seq<ComplianceIssue> := [];
    var suggestions: seq<string> := [];
    var score := 1.0;
    var userMessages := WithRole(conv, User);
    var sensitivePatterns := PrivacyDetectors(rules);
    for i := 0 to |userMessages|
      invariant issues == PrivacyIssues(userMessages, sensitivePatterns, i)
      invariant score == 1.0 - 0.1 * |issues| as real
    {
      var msg := userMessages[i];
      ghost var before := issues;
      for k := 0 to |sensitivePatterns|
        invariant issues == before + DetectorIssues(sensitivePatterns, msg.content, i, k)
        invariant score == 1.0 - 0.1 * |issues| as real
      {
        var detector := sensitivePatterns[k];
        if detector.test(msg.content) {
          issues := issues + [PrivacyIssue(detector.name, i)];
          score := score - 0.1;
        }
      }
    }
    assert MaxZero(score) == PenalizedScore(0.1, |issues|);
    report := LayerReport(MaxZero(score), issues, suggestions);
  }

  // ===========================================================================
  // Overall check (compliance-checker.ts:24-94)
  // ===========================================================================

  function StrictnessOf(options: ComplianceCheckOptions): Strictness {
    if options.strictness.Some? then options.strictness.value else Strictness.Moderate
  }

  /** The default selection, in the order the issues are gathered. */
  const AllLayers: seq<ProtocolLayer> := [TrustTransparency, EmotionalBoundary, Collaboration, Ethics, Privacy]

  /** The selection as given, duplicates and order included; an empty list
      selects nothing. */
  function LayersToCheck(options: ComplianceCheckOptions): seq<ProtocolLayer> {
    if options.layers.Some? then options.layers.value else AllLayers
  }

  /** The report of a layer that is not checked. */
  const NeutralReport: LayerReport := LayerReport(1.0, [], [])

  function LayerCheck(conv: Conversation, strictness: Strictness, rules: ComplianceRules, layer: ProtocolLayer): LayerReport {
    match layer
    case TrustTransparency => CheckTrustTransparency(conv, strictness, rules)
    case EmotionalBoundary => EmotionalBoundaryReport(conv, rules)
    case Collaboration => CollaborationReport(conv, rules)
    case Ethics => EthicsReport(conv, rules)
    case Privacy => PrivacyReport(conv, rules)
  }

  function SelectedReport(conv: Conversation, strictness: Strictness, rules: ComplianceRules,
                          selected: seq<ProtocolLayer>, layer: ProtocolLayer): LayerReport {
    if layer in selected then LayerCheck(conv, strictness, rules, layer) else NeutralReport
  }

  /** All five layers are present in the report's map. */
  predicate HasAllLayers(layers: map<ProtocolLayer, LayerReport>) {
    forall l: ProtocolLayer :: l in layers
  }

  /** The `layers` object of the report, one entry per layer. */
  function LayerMap(trustTransparency: LayerReport, emotionalBoundary: LayerReport, collaboration: LayerReport,
                    ethics: LayerReport, privacy: LayerReport): map<ProtocolLayer, LayerReport> {
    map[TrustTransparency := trustTransparency, EmotionalBoundary := emotionalBoundary,
        Collaboration := collaboration, Ethics := ethics, Privacy := privacy]
  }

  lemma LayerMapComplete(trustTransparency: LayerReport, emotionalBoundary: LayerReport, collaboration: LayerReport,
                         ethics: LayerReport, privacy: LayerReport)
    ensures HasAllLayers(LayerMap(trustTransparency, emotionalBoundary, collaboration, ethics, privacy))
  {
    var layers := LayerMap(trustTransparency, emotionalBoundary, collaboration, ethics, privacy);
    forall l: ProtocolLayer
      ensures l in layers
    {
      match l
      case TrustTransparency =>
      case EmotionalBoundary =>
      case Collaboration =>
      case Ethics =>
      case Privacy =>
    }
  }

  function LayerReports(conv: Conversation, strictness: Strictness, rules: ComplianceRules,
                        selected: seq<ProtocolLayer>): (layers: map<ProtocolLayer, LayerReport>)
    ensures HasAllLayers(layers)
  {
    LayerMapComplete(SelectedReport(conv, strictness, rules, selected, TrustTransparency),
                     SelectedReport(conv, strictness, rules, selected, EmotionalBoundary),
                     SelectedReport(conv, strictness, rules, selected, Collaboration),
                     SelectedReport(conv, strictness, rules, selected, Ethics),
                     SelectedReport(conv, strictness, rules, selected, Privacy));
    LayerMap(SelectedReport(conv, strictness, rules, selected, TrustTransparency),
             SelectedReport(conv, strictness, rules, selected, EmotionalBoundary),
             SelectedReport(conv, strictness, rules, selected, Collaboration),
             SelectedReport(conv, strictness, rules, selected, Ethics),
             SelectedReport(conv, strictness, rules, selected, Privacy))
  }

  lemma LayerReportsAt(conv: Conversation, strictness: Strictness, rules: ComplianceRules,
                       selected: seq<ProtocolLayer>, l: ProtocolLayer)
    ensures LayerReports(conv, strictness, rules, selected)[l] == SelectedReport(conv, strictness, rules, selected, l)
  {
    match l
    case TrustTransparency =>
    case EmotionalBoundary =>
    case Collaboration =>
    case Ethics =>
    case Privacy =>
  }

  /** The issues of the five layers, in the fixed layer order. */
  function AllIssues(layers: map<ProtocolLayer, LayerReport>): seq<ComplianceIssue>
    requires HasAllLayers(layers)
  {
    layers[TrustTransparency].issues + layers[EmotionalBoundary].issues + layers[Collaboration].issues
    + layers[Ethics].issues + layers[Privacy].issues
  }

  /** `layersToCheck.map((layer) => layers[layer].score)` */
  function LayerScores(layers: map<ProtocolLayer, LayerReport>, selected: seq<ProtocolLayer>): (scores: seq<real>)
    requires HasAllLayers(layers)
    ensures |scores| == |selected|
    ensures forall t :: 0 <= t < |selected| ==> scores[t] == layers[selected[t]].score
  {
    if selected == [] then []
    else LayerScores(layers, selected[..|selected| - 1]) + [layers[selected[|selected| - 1]].score]
  }

  function Sum(xs: seq<real>): real {
    if xs == [] then 0.0 else Sum(xs[..|xs| - 1]) + xs[|xs| - 1]
  }

  /** The mean of the selected layers' scores; 1 when none is selected. */
  function OverallScore(scores: seq<real>): real {
    if |scores| == 0 then 1.0 else Sum(scores) / |scores| as real
  }

  function Threshold(strictness: Strictness): real {
    match strictness
    case Strict => 0.9
    case Moderate => 0.7
    case Lenient => 0.5
  }

  predicate InUnitInterval(xs: seq<real>) {
    forall t :: 0 <= t < |xs| ==> 0.0 <= xs[t] <= 1.0
  }

  lemma {:induction false} SumBounds(xs: seq<real>)
    requires InUnitInterval(xs)
    ensures 0.0 <= Sum(xs) <= |xs| as real
  {
    if xs != [] {
      SumBounds(xs[..|xs| - 1]);
    }
  }

  /** Averaging scores that lie in [0, 1] gives a score in [0, 1]. */
  lemma DivisionMonotone(a: real, b: real, n: real)
    requires a <= b && 0.0 < n
    ensures a / n <= b / n
  {
    assert (b - a) / n >= 0.0;
  }

  lemma OverallScoreBounds(scores: seq<real>)
    requires InUnitInterval(scores)
    ensures 0.0 <= OverallScore(scores) <= 1.0
  {
    if |scores| > 0 {
      SumBounds(scores);
      var n := |scores| as real;
      DivisionMonotone(Sum(scores), n, n);
    }
  }

  lemma LayerScoresInUnitInterval(conv: Conversation, strictness: Strictness, rules: ComplianceRules, selected: seq<ProtocolLayer>)
    ensures InUnitInterval(LayerScores(LayerReports(conv, strictness, rules, selected), selected))
  {
    var layers := LayerReports(conv, strictness, rules, selected);
    forall t | 0 <= t < |selected|
      ensures 0.0 <= layers[selected[t]].score <= 1.0
    {
      var l := selected[t];
      match l
      case TrustTransparency =>
      case EmotionalBoundary =>
      case Collaboration =>
      case Ethics =>
      case Privacy =>
    }
  }

  /** The report built from the layer reports: the score is the mean of the
      selected layers' scores (with duplicates), compliance is that score
      against the strictness threshold, and the issues come in the fixed
      layer order whatever the selection order. */
  function Assemble(layers: map<ProtocolLayer, LayerReport>, selected: seq<ProtocolLayer>,
                    strictness: Strictness, now: int): (report: ComplianceReport)
    requires HasAllLayers(layers)
    ensures report.compliant <==> report.score >= Threshold(strictness)
    ensures report.layers == layers && report.issues == AllIssues(layers) && report.timestamp == now
    ensures selected == [] ==> report.score == 1.0
  {
    var score := OverallScore(LayerScores(layers, selected));
    ComplianceReport(score >= Threshold(strictness), score, layers, AllIssues(layers), now)
  }

  /** The report `checkCompliance` returns: unselected layers stay neutral and
      the score lies in [0, 1]. */
  function ComplianceFor(conv: Conversation, options: ComplianceCheckOptions, rules: ComplianceRules, now: int): (report: ComplianceReport)
    ensures 0.0 <= report.score <= 1.0
    ensures report.compliant <==> report.score >= Threshold(StrictnessOf(options))
    ensures HasAllLayers(report.layers)
    ensures forall l: ProtocolLayer :: l !in LayersToCheck(options) ==> report.layers[l] == NeutralReport
    ensures report.issues == AllIssues(report.layers)
    ensures report.timestamp == now
  {
    var strictness := StrictnessOf(options);
    var selected := LayersToCheck(options);
    LayerScoresInUnitInterval(conv, strictness, rules, selected);
    OverallScoreBounds(LayerScores(LayerReports(conv, strictness, rules, selected), selected));
    Assemble(LayerReports(conv, strictness, rules, selected), selected, strictness, now)
  }

  /** One `if (layersToCheck.includes(layer))` step of `checkCompliance`: runs
      the layer's check when it is selected and appends its issues. */
  method CheckLayer(conv: Conversation, strictness: Strictness, rules: ComplianceRules,
                    layersToCheck: seq<ProtocolLayer>, layer: ProtocolLayer, issues: seq<ComplianceIssue>)
    returns (report: LayerReport, issuesAfter: seq<ComplianceIssue>)
    ensures report == SelectedReport(conv, strictness, rules, layersToCheck, layer)
    ensures issuesAfter == issues + report.issues
  {
    report := NeutralReport;
    issuesAfter := issues;
    if layer in layersToCheck {
      match layer {
        case TrustTransparency => report := CheckTrustTransparency(conv, strictness, rules);
        case EmotionalBoundary => report := CheckEmotionalBoundary(conv, rules);
        case Collaboration => report := CheckCollaboration(conv, rules);
        case Ethics => report := CheckEthics(conv, rules);
        case Privacy => report := CheckPrivacy(conv, rules);
      }
      issuesAfter := issues + report.issues;
    }
  }

  method CheckCompliance(conv: Conversation, options: ComplianceCheckOptions, rules: ComplianceRules, now: int)
    returns (report: ComplianceReport)
    ensures report == ComplianceFor(conv, options, rules, now)
  {
    var strictness := if options.strictness.Some? then options.strictness.value else Strictness.Moderate;
    var layersToCheck := if options.layers.Some? then options.layers.value else AllLayers;
    assert strictness == StrictnessOf(options) && layersToCheck == LayersToCheck(options);

    var issues: seq<ComplianceIssue> := [];
    var trustTransparency, emotionalBoundary, collaboration, ethics, privacy;
    trustTransparency, issues := CheckLayer(conv, strictness, rules, layersToCheck, TrustTransparency, issues);
    emotionalBoundary, issues := CheckLayer(conv, strictness, rules, layersToCheck, EmotionalBoundary, issues);
    collaboration, issues := CheckLayer(conv, strictness, rules, layersToCheck, Collaboration, issues);
    ethics, issues := CheckLayer(conv, strictness, rules, layersToCheck, Ethics, issues);
    privacy, issues := CheckLayer(conv, strictness, rules, layersToCheck, Privacy, issues);
    var layers := LayerMap(trustTransparency, emotionalBoundary, collaboration, ethics, privacy);
    LayerMapComplete(trustTransparency, emotionalBoundary, collaboration, ethics, privacy);
    assert layers == LayerReports(conv, strictness, rules, layersToCheck);
    assert issues == AllIssues(layers) by {
      assert [] + trustTransparency.issues == trustTransparency.issues;
    }

    var layerScores := LayerScores(layers, layersToCheck);
    var overallScore := if |layerScores| == 0 then 1.0 else Sum(layerScores) / |layerScores| as real;
    var compliant :=
      if strictness == Strict then overallScore >= 0.9
      else if strictness == Strictness.Moderate then overallScore >= 0.7
      else overallScore >= 0.5;
    report := ComplianceReport(compliant, overallScore, layers, issues, now);
    assert report == Assemble(layers, layersToCheck, strictness, now);
  }

  // ===========================================================================
  // Properties of the whole report
  // ===========================================================================

  /** Selecting no layer at all gives a compliant report with score 1, no
      issues and every layer neutral. */
  lemma EmptySelectionIsCompliant(conv: Conversation, options: ComplianceCheckOptions, rules: ComplianceRules, now: int)
    requires options.layers == Some([])
    ensures ComplianceFor(conv, options, rules, now).score == 1.0
    ensures ComplianceFor(conv, options, rules, now).compliant
    ensures ComplianceFor(conv, options, rules, now).issues == []
  {
    var report := ComplianceFor(conv, options, rules, now);
    assert report.layers[TrustTransparency] == NeutralReport;
    assert report.layers[EmotionalBoundary] == NeutralReport;
    assert report.layers[Collaboration] == NeutralReport;
    assert report.layers[Ethics] == NeutralReport;
    assert report.layers[Privacy] == NeutralReport;
  }

  lemma SingleScore(layers: map<ProtocolLayer, LayerReport>, l: ProtocolLayer)
    requires HasAllLayers(layers)
    ensures OverallScore(LayerScores(layers, [l])) == layers[l].score
  {
    var scores := LayerScores(layers, [l]);
    assert scores == [layers[l].score];
    assert Sum(scores) == Sum([]) + layers[l].score;
  }

  /** With a single selected layer, the overall score is that layer's score
      and that layer's report is the layer check's own. */
  lemma SingleLayerScore(conv: Conversation, options: ComplianceCheckOptions, rules: ComplianceRules, now: int, l: ProtocolLayer)
    requires options.layers == Some([l])
    ensures ComplianceFor(conv, options, rules, now).layers[l] == LayerCheck(conv, StrictnessOf(options), rules, l)
    ensures ComplianceFor(conv, options, rules, now).score == LayerCheck(conv, StrictnessOf(options), rules, l).score
  {
    var layers := LayerReports(conv, StrictnessOf(options), rules, [l]);
    LayerReportsAt(conv, StrictnessOf(options), rules, [l], l);
    SingleScore(layers, l);
  }

  /** 2 for strict, 1 for moderate, 0 for lenient. */
  function Rank(strictness: Strictness): nat {
    match strictness
    case Strict => 2
    case Moderate => 1
    case Lenient => 0
  }

  lemma {:induction false} SumMonotone(xs: seq<real>, ys: seq<real>)
    requires |xs| == |ys|
    requires forall t :: 0 <= t < |xs| ==> xs[t] <= ys[t]
    ensures Sum(xs) <= Sum(ys)
  {
    if xs != [] {
      SumMonotone(xs[..|xs| - 1], ys[..|ys| - 1]);
    }
  }

  /** Raising no layer's score raises no mean. */
  lemma OverallScoreMonotone(l1: map<ProtocolLayer, LayerReport>, l2: map<ProtocolLayer, LayerReport>, selected: seq<ProtocolLayer>)
    requires HasAllLayers(l1) && HasAllLayers(l2)
    requires forall l :: l1[l].score <= l2[l].score
    ensures OverallScore(LayerScores(l1, selected)) <= OverallScore(LayerScores(l2, selected))
  {
    var xs, ys := LayerScores(l1, selected), LayerScores(l2, selected);
    SumMonotone(xs, ys);
    if |selected| > 0 {
      DivisionMonotone(Sum(xs), Sum(ys), |selected| as real);
    }
  }

  /** Only the trust layer depends on the strictness, and a stricter setting
      never raises any layer's score, hence never the overall score. */
  lemma StricterScoresNoHigher(conv: Conversation, rules: ComplianceRules, selected: seq<ProtocolLayer>,
                               stricter: Strictness, laxer: Strictness)
    requires Rank(stricter) >= Rank(laxer)
    ensures OverallScore(LayerScores(LayerReports(conv, stricter, rules, selected), selected))
            <= OverallScore(LayerScores(LayerReports(conv, laxer, rules, selected), selected))
  {
    var l1, l2 := LayerReports(conv, stricter, rules, selected), LayerReports(conv, laxer, rules, selected);
    forall l: ProtocolLayer
      ensures l1[l].score <= l2[l].score
    {
      LayerReportsAt(conv, stricter, rules, selected, l);
      LayerReportsAt(conv, laxer, rules, selected, l);
      if l == TrustTransparency {
        TrustScoreMonotone(conv, rules);
      }
    }
    OverallScoreMonotone(l1, l2, selected);
  }

  /** A conversation compliant under a stricter setting is compliant under
      any laxer one with the same layer selection. */
  lemma CompliantUnderLaxerStrictness(conv: Conversation, stricter: ComplianceCheckOptions, laxer: ComplianceCheckOptions,
                                      rules: ComplianceRules, now: int)
    requires stricter.layers == laxer.layers
    requires Rank(StrictnessOf(stricter)) >= Rank(StrictnessOf(laxer))
    requires ComplianceFor(conv, stricter, rules, now).compliant
    ensures ComplianceFor(conv, laxer, rules, now).compliant
  {
    StricterScoresNoHigher(conv, rules, LayersToCheck(stricter), StrictnessOf(stricter), StrictnessOf(laxer));
  }

  /** The layer map and the issue list depend on which layers are selected,
      not on the order or repetition in which they are listed. */
  lemma SelectionOrderIrrelevant(conv: Conversation, o1: ComplianceCheckOptions, o2: ComplianceCheckOptions,
                                 rules: ComplianceRules, now: int)
    requires StrictnessOf(o1) == StrictnessOf(o2)
    requires forall l :: l in LayersToCheck(o1) <==> l in LayersToCheck(o2)
    ensures ComplianceFor(conv, o1, rules, now).layers == ComplianceFor(conv, o2, rules, now).layers
    ensures ComplianceFor(conv, o1, rules, now).issues == ComplianceFor(conv, o2, rules, now).issues
  {
    var strictness, s1, s2 := StrictnessOf(o1), LayersToCheck(o1), LayersToCheck(o2);
    assert SelectedReport(conv, strictness, rules, s1, TrustTransparency) == SelectedReport(conv, strictness, rules, s2, TrustTransparency);
    assert SelectedReport(conv, strictness, rules, s1, EmotionalBoundary) == SelectedReport(conv, strictness, rules, s2, EmotionalBoundary);
    assert SelectedReport(conv, strictness, rules, s1, Collaboration) == SelectedReport(conv, strictness, rules, s2, Collaboration);
    assert SelectedReport(conv, strictness, rules, s1, Ethics) == SelectedReport(conv, strictness, rules, s2, Ethics);
    assert SelectedReport(conv, strictness, rules, s1, Privacy) == SelectedReport(conv, strictness, rules, s2, Privacy);
  }

  /** A user message that mentions a password, checked on the privacy layer
      alone: the password warning for that message is reported and the score
      drops below 1. */
  lemma PasswordIsReported(rules: ComplianceRules, now: int)
    requires rules.password("My password is abc123")
    ensures var conv := [ConversationMessage(User, "My password is abc123"),
                         ConversationMessage(Assistant, "Thanks for sharing.")];
            var report := ComplianceFor(conv, ComplianceCheckOptions(None, Some([Privacy])), rules, now);
            PrivacyIssue("Password", 0) in report.issues && report.score < 1.0
  {
    var conv := [ConversationMessage(User, "My password is abc123"),
                 ConversationMessage(Assistant, "Thanks for sharing.")];
    var options := ComplianceCheckOptions(None, Some([Privacy]));
    assert WithRole(conv, User) == [conv[0]];
    PrivacyIssueIff(conv, rules, 0, 3);
    SingleLayerScore(conv, options, rules, now, Privacy);
    var report := ComplianceFor(conv, options, rules, now);
    assert report.layers[Privacy] == PrivacyReport(conv, rules);
    assert report.issues == AllIssues(report.layers);
  }
}
